/** Vocabulary shared by every module of the model: optional values, the truthiness
    of optional JavaScript strings, ECMAScript whitespace and trimming, substring
    search, and decimal rendering of naturals. */
module Common {

  datatype Option<+T> = None | Some(value: T) {
    /** `x ?? default` */
    function GetOr(default: T): T {
      if Some? then value else default
    }
  }

  /** A JavaScript `string | undefined | null` is truthy iff it is present and non-empty. */
  predicate Truthy(o: Option<string>) {
    o.Some? && o.value != ""
  }

  /** `o || fallback` on an optional string. */
  function OrElse(o: Option<string>, fallback: string): string {
    if Truthy(o) then o.value else fallback
  }

  // ---------------------------------------------------------------------------
  // Searching a sequence

  /** The first position whose element satisfies `p` (what `findFirst` returns;
      `findUnique` returns the only one). */
  function FirstIndex<T>(s: seq<T>, p: T -> bool): (r: Option<nat>)
    ensures r.Some? ==> r.value < |s| && p(s[r.value])
    ensures r.Some? ==> forall k :: 0 <= k < r.value ==> !p(s[k])
    ensures r.None? <==> forall k :: 0 <= k < |s| ==> !p(s[k])
  {
    if s == [] then None
    else if p(s[0]) then Some(0)
    else
      match FirstIndex(s[1..], p)
      case None => None
      case Some(i) => Some(i + 1)
  }

  // ---------------------------------------------------------------------------
  // Whitespace and trimming

  /** ECMAScript WhiteSpace and LineTerminator code points: what `\s` matches and
      what `String.prototype.trim` removes. */
  predicate IsSpace(c: char) {
    || c == '\t' || c == '\n' || c == '\U{000B}' || c == '\U{000C}' || c == '\r'
    || c == ' ' || c == '\U{00A0}' || c == '\U{1680}'
    || ('\U{2000}' <= c <= '\U{200A}')
    || c == '\U{2028}' || c == '\U{2029}' || c == '\U{202F}' || c == '\U{205F}'
    || c == '\U{3000}' || c == '\U{FEFF}'
  }

  predicate NoSpace(s: string) {
    forall k :: 0 <= k < |s| ==> !IsSpace(s[k])
  }

  /** Drops the leading whitespace of `s`. */
  function TrimStart(s: string): (r: string)
    ensures |r| <= |s| && r == s[|s| - |r|..]
    ensures r == [] || !IsSpace(r[0])
    ensures forall k :: 0 <= k < |s| - |r| ==> IsSpace(s[k])
  {
    if s != [] && IsSpace(s[0]) then TrimStart(s[1..]) else s
  }

  /** Drops the trailing whitespace of `s`. */
  function TrimEnd(s: string): (r: string)
    ensures |r| <= |s| && r == s[..|r|]
    ensures r == [] || !IsSpace(r[|r| - 1])
    ensures forall k :: |r| <= k < |s| ==> IsSpace(s[k])
  {
    if s != [] && IsSpace(s[|s| - 1]) then TrimEnd(s[..|s| - 1]) else s
  }

  /** `s.trim()`: the longest slice of `s` that neither starts nor ends with whitespace
      and is surrounded by whitespace only. */
  function Trim(s: string): (r: string)
    ensures |r| <= |s|
    ensures r == [] || (!IsSpace(r[0]) && !IsSpace(r[|r| - 1]))
  {
    TrimEnd(TrimStart(s))
  }

  /** Trimming a string whose ends are not whitespace changes nothing. */
  lemma TrimUntouched(s: string)
    requires s == [] || (!IsSpace(s[0]) && !IsSpace(s[|s| - 1]))
    ensures Trim(s) == s
  {
  }

  // ---------------------------------------------------------------------------
  // Substring search

  /** `p` occurs in `s` at offset `k`. */
  predicate OccursAt(s: string, p: string, k: nat) {
    k + |p| <= |s| && s[k..k + |p|] == p
  }

  /** The first offset at or after `from` where `p` occurs in `s`. */
  function IndexOfFrom(s: string, p: string, from: nat): (r: Option<nat>)
    ensures r.Some? ==> from <= r.value && OccursAt(s, p, r.value)
    ensures r.Some? ==> forall k :: from <= k < r.value ==> !OccursAt(s, p, k)
    ensures r.None? ==> forall k :: from <= k ==> !OccursAt(s, p, k)
    decreases |s| - from
  {
    if from + |p| > |s| then None
    else if OccursAt(s, p, from) then Some(from)
    else IndexOfFrom(s, p, from + 1)
  }

  /** `s.indexOf(p)`, with -1 as None. */
  function IndexOf(s: string, p: string): Option<nat> {
    IndexOfFrom(s, p, 0)
  }

  /** `s.includes(p)` */
  predicate Contains(s: string, p: string) {
    IndexOf(s, p).Some?
  }

  /** Containment is occurrence at some offset. */
  lemma ContainsIff(s: string, p: string, k: nat)
    ensures OccursAt(s, p, k) ==> Contains(s, p)
    ensures Contains(s, p) ==> OccursAt(s, p, IndexOf(s, p).value)
  {
  }

  /** A string that contains `p + q` contains `p`. */
  lemma ContainsPrefixOfNeedle(s: string, p: string, q: string)
    requires Contains(s, p + q)
    ensures Contains(s, p)
  {
    var k := IndexOf(s, p + q).value;
    assert s[k..k + |p|] == (s[k..k + |p + q|])[..|p|];
    ContainsIff(s, p, k);
  }

  /** `s.replace(p, r)` with a string pattern: only the first occurrence is replaced. */
  function ReplaceFirst(s: string, p: string, r: string): string {
    match IndexOf(s, p)
    case None => s
    case Some(i) => s[..i] + r + s[i + |p|..]
  }

  /** When `s` starts with `p`, replacing the first `p` by nothing drops that prefix. */
  lemma ReplaceFirstOfPrefix(s: string, p: string)
    requires p <= s
    ensures ReplaceFirst(s, p, "") == s[|p|..]
  {
    assert OccursAt(s, p, 0);
  }

  /** `lines.join(sep)` */
  function Join(lines: seq<string>, sep: string): string {
    if lines == [] then "" else if |lines| == 1 then lines[0] else lines[0] + sep + Join(lines[1..], sep)
  }

  /** `s.indexOf(c)` for one character: its first position, when it occurs. */
  function CharIndex(s: string, c: char): (r: Option<nat>)
    ensures r.Some? ==> r.value < |s| && s[r.value] == c
    ensures r.Some? ==> forall k :: 0 <= k < r.value ==> s[k] != c
    ensures r.None? ==> forall k :: 0 <= k < |s| ==> s[k] != c
  {
    FirstIndex(s, (x: char) => x == c)
  }

  /** `s.split(sep)` for a one-character separator: the pieces between separators. */
  function Split(s: string, sep: char): (pieces: seq<string>)
    ensures |pieces| >= 1
  {
    match CharIndex(s, sep)
    case None => [s]
    case Some(i) => [s[..i]] + Split(s[i + 1..], sep)
  }

  /** `piece` holds no `sep`, and only characters of `s`. */
  predicate PieceOf(piece: string, s: string, sep: char) {
    forall k :: 0 <= k < |piece| ==> piece[k] != sep && piece[k] in s
  }

  /** Every piece of `s.split(sep)` is a piece of `s` in that sense. */
  lemma {:induction false} SplitPieces(s: string, sep: char)
    ensures forall i :: 0 <= i < |Split(s, sep)| ==> PieceOf(Split(s, sep)[i], s, sep)
    decreases |s|
  {
    match CharIndex(s, sep)
    case None =>
      assert Split(s, sep) == [s];
      assert PieceOf(s, s, sep);
    case Some(j) =>
      var rest := s[j + 1..];
      var pieces := Split(rest, sep);
      assert Split(s, sep) == [s[..j]] + pieces;
      HeadPiece(s, sep, j);
      SplitPieces(rest, sep);
      forall i | 1 <= i < |Split(s, sep)| ensures PieceOf(Split(s, sep)[i], s, sep) {
        assert Split(s, sep)[i] == pieces[i - 1];
        TailPiece(pieces[i - 1], s, j + 1, sep);
      }
  }

  /** The stretch before the first separator is a piece. */
  lemma HeadPiece(s: string, sep: char, j: nat)
    requires j < |s| && forall k :: 0 <= k < j ==> s[k] != sep
    ensures PieceOf(s[..j], s, sep)
  {
    forall k | 0 <= k < j ensures s[..j][k] != sep && s[..j][k] in s {
      assert s[..j][k] == s[k];
    }
  }

  /** A piece of a tail of `s` is a piece of `s`. */
  lemma TailPiece(piece: string, s: string, from: nat, sep: char)
    requires from <= |s| && PieceOf(piece, s[from..], sep)
    ensures PieceOf(piece, s, sep)
  {
    forall k | 0 <= k < |piece| ensures piece[k] != sep && piece[k] in s {
      var m :| 0 <= m < |s[from..]| && s[from..][m] == piece[k];
      assert s[from + m] == piece[k];
    }
  }

  // ---------------------------------------------------------------------------
  // Digits and decimal text

  predicate IsDigit(c: char) {
    '0' <= c <= '9'
  }

  predicate AllDigits(s: string) {
    forall k :: 0 <= k < |s| ==> IsDigit(s[k])
  }

  function DigitChar(d: nat): (c: char)
    requires d < 10
    ensures IsDigit(c) && c as int - '0' as int == d
  {
    "0123456789"[d]
  }

  /** The number a string of decimal digits denotes (leading zeros allowed). */
  function ParseDigits(s: string): nat
    requires AllDigits(s)
  {
    if s == [] then 0 else ParseDigits(s[..|s| - 1]) * 10 + (s[|s| - 1] as int - '0' as int)
  }

  /** `n.toString()` for a natural number: decimal, no leading zeros. */
  function NatToString(n: nat): (r: string)
    ensures |r| >= 1 && AllDigits(r)
    ensures ParseDigits(r) == n
    ensures |r| > 1 ==> r[0] != '0'
    decreases n
  {
    if n < 10 then [DigitChar(n)]
    else
      var r := NatToString(n / 10) + [DigitChar(n % 10)];
      assert r[..|r| - 1] == NatToString(n / 10);
      r
  }

  function Pow10(k: nat): (p: nat)
    ensures p >= 1
  {
    if k == 0 then 1 else 10 * Pow10(k - 1)
  }

  /** A number below 10^k is written with at most k digits. */
  lemma {:induction false} NatToStringWidth(n: nat, k: nat)
    requires 1 <= k && n < Pow10(k)
    ensures |NatToString(n)| <= k
    decreases k
  {
    if n >= 10 {
      assert k > 1;
      NatToStringWidth(n / 10, k - 1);
    }
  }

  function Repeat(c: char, n: nat): (r: string)
    ensures |r| == n && forall k :: 0 <= k < n ==> r[k] == c
  {
    if n == 0 then [] else [c] + Repeat(c, n - 1)
  }

  /** `s.padStart(width, c)` for a one-character pad string. */
  function PadStart(s: string, width: nat, c: char): (r: string)
    ensures |r| == if |s| >= width then |s| else width
    ensures s <= r[|r| - |s|..] && r[|r| - |s|..] == s
    ensures forall k :: 0 <= k < |r| - |s| ==> r[k] == c
  {
    if |s| >= width then s else Repeat(c, width - |s|) + s
  }

  /** Leading zeros do not change the number a digit string denotes. */
  lemma {:induction false} ParseDigitsLeadingZeros(z: nat, s: string)
    requires AllDigits(s)
    ensures AllDigits(Repeat('0', z) + s)
    ensures ParseDigits(Repeat('0', z) + s) == ParseDigits(s)
    decreases z, |s|
  {
    var t := Repeat('0', z) + s;
    if s == [] {
      if z > 0 {
        assert t == Repeat('0', z - 1) + "0";
        ParseDigitsLeadingZeros(z - 1, "");
        assert t[..|t| - 1] == Repeat('0', z - 1) + [];
      }
    } else {
      var init := s[..|s| - 1];
      ParseDigitsLeadingZeros(z, init);
      assert t[..|t| - 1] == Repeat('0', z) + init;
      assert t[|t| - 1] == s[|s| - 1];
    }
  }
}
