/** String helpers of the application: phone formatting and the regular-expression
    validators for e-mail addresses and phone numbers. */
module Utils {
  import opened Common

  // ---------------------------------------------------------------------------
  // formatPhoneNumber

  /** `s.replace(/\D/g, "")`: the decimal digits of `s`, in order. */
  function DigitsOf(s: string): (r: string)
    ensures AllDigits(r) && |r| <= |s|
  {
    if s == [] then [] else (if IsDigit(s[0]) then [s[0]] else []) + DigitsOf(s[1..])
  }

  lemma {:induction false} DigitsOfAppend(a: string, b: string)
    ensures DigitsOf(a + b) == DigitsOf(a) + DigitsOf(b)
  {
    if a == [] {
      assert a + b == b;
    } else {
      assert (a + b)[0] == a[0] && (a + b)[1..] == a[1..] + b;
      DigitsOfAppend(a[1..], b);
    }
  }

  lemma {:induction false} DigitsOfDigits(s: string)
    requires AllDigits(s)
    ensures DigitsOf(s) == s
  {
    if s != [] {
      DigitsOfDigits(s[1..]);
    }
  }

  /** The shape "(ddd) ddd-dddd". */
  predicate PhoneLayout(r: string) {
    && |r| == 14
    && r[0] == '(' && r[4] == ')' && r[5] == ' ' && r[9] == '-'
    && AllDigits(r[1..4]) && AllDigits(r[6..9]) && AllDigits(r[10..])
  }

  /** "(ddd) ddd-dddd" over ten digits. */
  function Layout(d: string): string
    requires |d| == 10
  {
    "(" + d[..3] + ") " + d[3..6] + "-" + d[6..]
  }

  /** The layout has the phone shape and carries the ten digits in order. */
  lemma LayoutCarriesDigits(d: string)
    requires |d| == 10 && AllDigits(d)
    ensures PhoneLayout(Layout(d)) && DigitsOf(Layout(d)) == d
  {
    var r := Layout(d);
    assert r[1..4] == d[..3] && r[6..9] == d[3..6] && r[10..] == d[6..];
    LayoutDigits(d[..3], d[3..6], d[6..]);
    assert d[..3] + d[3..6] + d[6..] == d;
  }

  lemma LayoutDigits(a: string, b: string, c: string)
    requires AllDigits(a) && AllDigits(b) && AllDigits(c)
    ensures DigitsOf("(" + a + ") " + b + "-" + c) == a + b + c
  {
    var s1 := "(" + a;
    assert DigitsOf(s1) == a by {
      DigitsOfAppend("(", a);
      DigitsOfDigits(a);
      assert DigitsOf("(") == [];
    }
    var s2 := s1 + ") ";
    assert DigitsOf(s2) == a by {
      DigitsOfAppend(s1, ") ");
      assert ") "[1..] == " ";
      assert DigitsOf(") ") == [];
    }
    var s3 := s2 + b;
    assert DigitsOf(s3) == a + b by {
      DigitsOfAppend(s2, b);
      DigitsOfDigits(b);
    }
    var s4 := s3 + "-";
    assert DigitsOf(s4) == a + b by {
      DigitsOfAppend(s3, "-");
      assert DigitsOf("-") == [];
    }
    DigitsOfAppend(s4, c);
    DigitsOfDigits(c);
  }

  /** `formatPhoneNumber`: a string with exactly ten digits becomes "(ddd) ddd-dddd"
      carrying those digits in order; any other string is returned unchanged (not
      its cleaned form). */
  function FormatPhoneNumber(phone: string): (r: string)
    ensures |DigitsOf(phone)| == 10 ==> PhoneLayout(r) && DigitsOf(r) == DigitsOf(phone)
    ensures |DigitsOf(phone)| != 10 ==> r == phone
  {
    var cleaned := DigitsOf(phone);
    if |cleaned| == 10 then
      LayoutCarriesDigits(cleaned);
      Layout(cleaned)
    else
      phone
  }

  /** Formatting an already formatted number changes nothing. */
  lemma FormatPhoneNumberIdempotent(phone: string)
    ensures FormatPhoneNumber(FormatPhoneNumber(phone)) == FormatPhoneNumber(phone)
  {
    var d := DigitsOf(phone);
    if |d| == 10 {
      var r := FormatPhoneNumber(phone);
      assert DigitsOf(r) == d;
    }
  }

  // ---------------------------------------------------------------------------
  // validateEmail (and the LINE webhook's isValidEmail, the same expression)

  /** What `[^\s@]` admits. */
  predicate Plain(c: char) {
    !IsSpace(c) && c != '@'
  }

  predicate AllPlain(s: string) {
    forall k :: 0 <= k < |s| ==> Plain(s[k])
  }

  /** What `^[^\s@]+@[^\s@]+\.[^\s@]+$` matches: three non-empty runs of characters
      other than whitespace and '@', joined by an '@' and then a '.'. */
  ghost predicate MatchesEmailPattern(s: string) {
    exists i, j :: 0 < i && i + 1 < j && j + 1 < |s| && s[i] == '@' && s[j] == '.'
      && AllPlain(s[..i]) && AllPlain(s[i + 1..j]) && AllPlain(s[j + 1..])
  }

  /** `validateEmail`: exactly one '@' with something before it, no whitespace, and
      a '.' in the domain that is neither its first nor its last character. */
  function ValidateEmail(email: string): (ok: bool)
    ensures ok ==> NoSpace(email) && 0 < |email| && email[0] != '@'
  {
    match FirstIndex(email, (c: char) => c == '@')
    case None => false
    case Some(at) =>
      var domain := email[at + 1..];
      && at > 0
      && NoSpace(email)
      && '@' !in domain
      && |domain| >= 3
      && '.' in domain[1..|domain| - 1]
  }

  /** The validator accepts exactly the strings the regular expression matches. */
  lemma EmailPatternCharacterised(s: string)
    ensures ValidateEmail(s) <==> MatchesEmailPattern(s)
  {
    if ValidateEmail(s) {
      ValidEmailMatches(s);
    }
    if MatchesEmailPattern(s) {
      var i, j :| 0 < i && i + 1 < j && j + 1 < |s| && s[i] == '@' && s[j] == '.'
        && AllPlain(s[..i]) && AllPlain(s[i + 1..j]) && AllPlain(s[j + 1..]);
      EmailSplitValid(s, i, j);
    }
  }

  /** A stretch of a whitespace-free string holding no '@' is plain. */
  lemma SliceAllPlain(s: string, lo: nat, hi: nat)
    requires NoSpace(s) && lo <= hi <= |s|
    requires forall k :: lo <= k < hi ==> s[k] != '@'
    ensures AllPlain(s[lo..hi])
  {
    forall k | 0 <= k < hi - lo ensures Plain(s[lo..hi][k]) {
      assert s[lo..hi][k] == s[lo + k];
    }
  }

  lemma ValidEmailMatches(s: string)
    requires ValidateEmail(s)
    ensures MatchesEmailPattern(s)
  {
    var at := FirstIndex(s, (c: char) => c == '@');
    var i := at.value;
    var d := s[i + 1..];
    assert i > 0 && NoSpace(s) && '@' !in d && |d| >= 3 && '.' in d[1..|d| - 1];
    var inner := d[1..|d| - 1];
    var q :| 0 <= q < |inner| && inner[q] == '.';
    var j := i + 2 + q;
    assert s[i] == '@';
    assert s[j] == '.' by {
      assert inner[q] == d[q + 1] == s[j];
    }
    assert forall k :: i < k < |s| ==> s[k] != '@' by {
      forall k | i < k < |s| ensures s[k] != '@' {
        assert s[k] == d[k - i - 1];
      }
    }
    SliceAllPlain(s, 0, i);
    SliceAllPlain(s, i + 1, j);
    SliceAllPlain(s, j + 1, |s|);
    assert s[j + 1..|s|] == s[j + 1..];
  }

  lemma EmailSplitValid(s: string, i: nat, j: nat)
    requires 0 < i && i + 1 < j && j + 1 < |s| && s[i] == '@' && s[j] == '.'
    requires AllPlain(s[..i]) && AllPlain(s[i + 1..j]) && AllPlain(s[j + 1..])
    ensures ValidateEmail(s)
  {
    var x, y, z := s[..i], s[i + 1..j], s[j + 1..];
    assert FirstIndex(s, (c: char) => c == '@') == Some(i) by {
      forall k | 0 <= k < i ensures s[k] != '@' {
        assert s[k] == x[k];
      }
    }
    assert NoSpace(s) by {
      forall k | 0 <= k < |s| ensures !IsSpace(s[k]) {
        if k < i {
          assert s[k] == x[k];
        } else if i < k < j {
          assert s[k] == y[k - i - 1];
        } else if j < k {
          assert s[k] == z[k - j - 1];
        }
      }
    }
    var d := s[i + 1..];
    assert '@' !in d by {
      forall k | 0 <= k < |d| ensures d[k] != '@' {
        if k < j - i - 1 {
          assert d[k] == y[k];
        } else if k > j - i - 1 {
          assert d[k] == z[k - (j - i)];
        }
      }
    }
    assert '.' in d[1..|d| - 1] by {
      assert d[1..|d| - 1][j - i - 2] == '.';
    }
  }

  // ---------------------------------------------------------------------------
  // validatePhone

  /** What the class `[0-9-()s]` admits as written: digits, '-', '(', ')' and the
      letter 's'. */
  predicate PhoneCharAsWritten(c: char) {
    IsDigit(c) || c == '-' || c == '(' || c == ')' || c == 's'
  }

  /** What the class was evidently meant to admit, `[0-9-()\s]`: digits, '-', '(',
      ')' and whitespace. */
  predicate PhoneCharIntended(c: char) {
    IsDigit(c) || c == '-' || c == '(' || c == ')' || IsSpace(c)
  }

  /** `c{10,15}` for the class `c`. */
  predicate PhoneRun(s: string, c: char -> bool) {
    10 <= |s| <= 15 && forall k :: 0 <= k < |s| ==> c(s[k])
  }

  /** `^[+]?c{10,15}$`, deciding the optional '+' the way the matcher does. */
  predicate PhonePattern(phone: string, c: char -> bool)
    requires !c('+')
  {
    if phone != [] && phone[0] == '+' then PhoneRun(phone[1..], c) else PhoneRun(phone, c)
  }

  /** `validatePhone` as written, `^[+]?[0-9-()s]{10,15}$`: an optional '+' and then
      10 to 15 characters, each a digit, '-', '(', ')' or the letter 's'. Whitespace
      is rejected. */
  function ValidatePhone(phone: string): (ok: bool)
    ensures ok <==> PhoneRun(phone, PhoneCharAsWritten)
                    || (phone != [] && phone[0] == '+' && PhoneRun(phone[1..], PhoneCharAsWritten))
    ensures ok ==> NoSpace(phone) && 10 <= |phone| <= 16
  {
    PhonePattern(phone, PhoneCharAsWritten)
  }

  /** As written, the validator accepts a run of the letter 's' and rejects a
      number written with spaces. */
  lemma PhoneClassTakesLetterS()
    ensures ValidatePhone("ssssssssss")
    ensures !ValidatePhone("081 234 5678")
  {
    assert !PhoneCharAsWritten("081 234 5678"[3]);
  }

  /** `validatePhone` as evidently intended, `^[+]?[0-9-()\s]{10,15}$`: whitespace
      is a separator and no letter is accepted. */
  function ValidatePhoneIntended(phone: string): (ok: bool)
    ensures ok <==> PhoneRun(phone, PhoneCharIntended)
                    || (phone != [] && phone[0] == '+' && PhoneRun(phone[1..], PhoneCharIntended))
    ensures ok ==> 10 <= |phone| <= 16
    ensures ok ==> forall k :: 0 <= k < |phone| ==> phone[k] == '+' || PhoneCharIntended(phone[k])
  {
    PhonePattern(phone, PhoneCharIntended)
  }

  /** The intended validator accepts a spaced number, rejects letters, and agrees
      with the written one on every string without whitespace or the letter 's'. */
  lemma PhoneIntendedAcceptsSpaces(phone: string)
    requires NoSpace(phone) && 's' !in phone
    ensures ValidatePhoneIntended("081 234 5678")
    ensures !ValidatePhoneIntended("ssssssssss")
    ensures ValidatePhoneIntended(phone) == ValidatePhone(phone)
  {
    assert !PhoneCharIntended("ssssssssss"[0]);
    forall k | 0 <= k < |phone| ensures PhoneCharAsWritten(phone[k]) <==> PhoneCharIntended(phone[k]) {
      assert phone[k] in phone;
    }
    if phone != [] && phone[0] == '+' {
      forall k | 0 <= k < |phone[1..]|
        ensures PhoneCharAsWritten(phone[1..][k]) <==> PhoneCharIntended(phone[1..][k])
      {
        assert phone[1..][k] == phone[k + 1];
      }
    }
  }
}
