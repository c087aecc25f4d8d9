/** Helpers for carrying a LINE user id through the web login flows: the id format
    check, reading the id from a request, and parking it in the browser's session
    or local storage. */
module AuthUtils {
  import opened Common
  import LineNotifications

  /** `isValidLineUid`: the same pattern as the notifier's check, `/^U[0-9a-f]{32}$/i`. */
  function IsValidLineUid(lineUid: string): (ok: bool)
    ensures ok <==> LineNotifications.IsValidLineUserId(lineUid)
  {
    && |lineUid| == 33
    && (lineUid[0] == 'U' || lineUid[0] == 'u')
    && forall k :: 1 <= k < 33 ==> LineNotifications.IsHexDigit(lineUid[k])
  }

  // ---------------------------------------------------------------------------
  // Reading the id from a URL or a request

  /** The query of a URL: what follows the first '?', up to the fragment's '#'. */
  function QueryOf(url: string): (q: Option<string>)
    ensures q.Some? ==> '#' !in q.value
  {
    var beforeFragment := match FirstIndex(url, (c: char) => c == '#')
      case None => url
      case Some(h) => url[..h];
    match FirstIndex(beforeFragment, (c: char) => c == '?')
    case None => None
    case Some(i) =>
      var q := beforeFragment[i + 1..];
      assert forall k :: 0 <= k < |q| ==> q[k] in beforeFragment && q[k] in url;
      Some(q)
  }

  /** The name of a `name=value` pair: up to its first '='. */
  function ParamName(pair: string): string {
    match FirstIndex(pair, (c: char) => c == '=')
    case None => pair
    case Some(e) => pair[..e]
  }

  /** The value of a `name=value` pair: after its first '=', empty without one. */
  function ParamValue(pair: string): (v: string)
    ensures |v| <= |pair| && v == pair[|pair| - |v|..]
  {
    match FirstIndex(pair, (c: char) => c == '=')
    case None => ""
    case Some(e) => pair[e + 1..]
  }

  /** The form-urlencoded decoding of a name or value: each '+' stands for a space. */
  function PlusToSpace(s: string): (r: string)
    ensures |r| == |s| && '+' !in r
    ensures forall k :: 0 <= k < |s| && s[k] != '+' ==> r[k] == s[k]
    ensures forall c :: c in r ==> c == ' ' || c in s
  {
    var r := seq(|s|, k requires 0 <= k < |s| => if s[k] == '+' then ' ' else s[k]);
    assert forall k :: 0 <= k < |r| ==> r[k] == ' ' || r[k] in s;
    r
  }

  /** `searchParams.get(name)`: the still encoded value of the first '&'-separated pair
      named `name`. Names are compared as written: decoding a '+' in a name only matters
      for a name holding a space, which `lineUid` does not. */
  function SearchParam(query: string, name: string): (r: Option<string>)
    ensures r.Some? ==> '&' !in r.value
    ensures r.Some? ==> forall c :: c in r.value ==> c in query
  {
    var pairs := Split(query, '&');
    match FirstIndex(pairs, (p: string) => ParamName(p) == name)
    case None => None
    case Some(i) =>
      SplitPieces(query, '&');
      var v := ParamValue(pairs[i]);
      assert PieceOf(pairs[i], query, '&');
      assert forall c :: c in v ==> c in pairs[i];
      Some(v)
  }

  /** A C0 control or a space: what the URL parser strips from both ends of its input. */
  predicate IsControlOrSpace(c: char) {
    c <= ' '
  }

  /** An ASCII tab or newline: what the URL parser removes everywhere in its input. */
  predicate IsTabOrNewline(c: char) {
    c == '\t' || c == '\n' || c == '\r'
  }

  /** `s` without its leading C0 controls and spaces. */
  function StripLeading(s: string): (r: string)
    ensures |r| <= |s| && r == s[|s| - |r|..]
    ensures r == [] || !IsControlOrSpace(r[0])
  {
    if |s| > 0 && IsControlOrSpace(s[0]) then StripLeading(s[1..]) else s
  }

  /** `s` without its trailing C0 controls and spaces. */
  function StripTrailing(s: string): (r: string)
    ensures |r| <= |s| && r == s[..|r|]
    ensures r == [] || !IsControlOrSpace(r[|r| - 1])
  {
    if |s| > 0 && IsControlOrSpace(s[|s| - 1]) then StripTrailing(s[..|s| - 1]) else s
  }

  /** Leading stripping removes only C0 controls and spaces. */
  lemma {:induction false} StripLeadingRemovesBlanks(s: string)
    ensures forall k :: 0 <= k < |s| - |StripLeading(s)| ==> IsControlOrSpace(s[k])
  {
    if |s| > 0 && IsControlOrSpace(s[0]) {
      StripLeadingRemovesBlanks(s[1..]);
      forall k | 1 <= k < |s| - |StripLeading(s)| ensures IsControlOrSpace(s[k]) {
        assert s[k] == s[1..][k - 1];
      }
    }
  }

  /** Trailing stripping removes only C0 controls and spaces. */
  lemma {:induction false} StripTrailingRemovesBlanks(s: string)
    ensures forall k :: |StripTrailing(s)| <= k < |s| ==> IsControlOrSpace(s[k])
  {
    if |s| > 0 && IsControlOrSpace(s[|s| - 1]) {
      StripTrailingRemovesBlanks(s[..|s| - 1]);
      forall k | |StripTrailing(s)| <= k < |s| - 1 ensures IsControlOrSpace(s[k]) {
        assert s[k] == s[..|s| - 1][k];
      }
    }
  }

  /** `s` without any ASCII tab or newline, the other characters kept in order. */
  function RemoveTabsAndNewlines(s: string): (r: string)
    ensures forall k :: 0 <= k < |r| ==> !IsTabOrNewline(r[k])
  {
    if s == [] then []
    else
      var rest := RemoveTabsAndNewlines(s[1..]);
      if IsTabOrNewline(s[0]) then rest else [s[0]] + rest
  }

  /** What `new URL` goes on to parse: the input without leading and trailing C0
      controls and spaces, then without any ASCII tab or newline, as the basic URL
      parser of the WHATWG URL Standard (section 4.4) prescribes. */
  function ParserInput(url: string): (r: string)
    ensures forall k :: 0 <= k < |r| ==> !IsTabOrNewline(r[k])
    ensures r == [] || (!IsControlOrSpace(r[0]) && !IsControlOrSpace(r[|r| - 1]))
  {
    var trimmed := StripTrailing(StripLeading(url));
    RemoveTabsKeepsEnds(trimmed);
    RemoveTabsAndNewlines(trimmed)
  }

  /** A string without tabs and newlines is left as it is. */
  lemma {:induction false} RemoveTabsNoop(s: string)
    requires forall k :: 0 <= k < |s| ==> !IsTabOrNewline(s[k])
    ensures RemoveTabsAndNewlines(s) == s
  {
    if s != [] {
      RemoveTabsNoop(s[1..]);
    }
  }

  /** Removing tabs and newlines keeps a first and last character that is neither a
      control nor a space. */
  lemma {:induction false} RemoveTabsKeepsEnds(s: string)
    requires s == [] || (!IsControlOrSpace(s[0]) && !IsControlOrSpace(s[|s| - 1]))
    ensures var r := RemoveTabsAndNewlines(s);
      r == [] || (!IsControlOrSpace(r[0]) && !IsControlOrSpace(r[|r| - 1]))
  {
    if s != [] {
      assert !IsTabOrNewline(s[0]);
      assert RemoveTabsAndNewlines(s) == [s[0]] + RemoveTabsAndNewlines(s[1..]);
      RemoveTabsEndsWithLast(s);
    }
  }

  /** A string whose last character is no tab or newline keeps that character last. */
  lemma {:induction false} RemoveTabsEndsWithLast(s: string)
    requires s != [] && !IsTabOrNewline(s[|s| - 1])
    ensures var r := RemoveTabsAndNewlines(s); r != [] && r[|r| - 1] == s[|s| - 1]
  {
    if |s| > 1 {
      assert s[1..][|s| - 2] == s[|s| - 1];
      RemoveTabsEndsWithLast(s[1..]);
    }
  }

  /** Tab and newline removal distributes over concatenation. */
  lemma {:induction false} RemoveTabsAppend(a: string, b: string)
    ensures RemoveTabsAndNewlines(a + b) == RemoveTabsAndNewlines(a) + RemoveTabsAndNewlines(b)
  {
    if a == [] {
      assert a + b == b;
    } else {
      assert (a + b)[0] == a[0] && (a + b)[1..] == a[1..] + b;
      RemoveTabsAppend(a[1..], b);
    }
  }

  /** Leading stripping of `a + m + b` stops at `m` when `m` starts with a visible
      character. */
  lemma {:induction false} StripLeadingJoin(a: string, m: string, b: string)
    requires m != [] && !IsControlOrSpace(m[0])
    ensures StripLeading(a + m + b) == StripLeading(a) + m + b
  {
    if a == [] {
      assert a + m + b == m + b;
      assert StripLeading(a + m + b) == m + b;
    } else {
      assert (a + m + b)[0] == a[0] && (a + m + b)[1..] == a[1..] + m + b;
      if IsControlOrSpace(a[0]) {
        StripLeadingJoin(a[1..], m, b);
      }
    }
  }

  /** Trailing stripping of `a + m + b` stops at `m` when `m` ends with a visible
      character. */
  lemma {:induction false} StripTrailingJoin(a: string, m: string, b: string)
    requires m != [] && !IsControlOrSpace(m[|m| - 1])
    ensures StripTrailing(a + m + b) == a + m + StripTrailing(b)
  {
    var s := a + m + b;
    if b == [] {
      assert s == a + m;
      assert s[|s| - 1] == m[|m| - 1];
    } else {
      assert s[|s| - 1] == b[|b| - 1] && s[..|s| - 1] == a + m + b[..|b| - 1];
      if IsControlOrSpace(b[|b| - 1]) {
        StripTrailingJoin(a, m, b[..|b| - 1]);
      }
    }
  }

  /** The query parameter that carries the LINE user id, and the text that starts it
      in a URL built by appending it. */
  const LineUidParam: string := "lineUid"
  const LineUidMarker: string := "?lineUid="

  /** `extractLineUidFromUrl`: the `lineUid` query parameter, '+' decoded as a space.
      `parses` says whether the URL parser accepts `url`; when it throws, the result is
      null. The query is read from the parser's cleaned input. */
  function ExtractLineUidFromUrl(url: string, parses: bool): (r: Option<string>)
    ensures !parses ==> r.None?
    ensures r.Some? ==> QueryOf(ParserInput(url)).Some? && '&' !in r.value && '#' !in r.value && '+' !in r.value
  {
    if !parses then None
    else match QueryOf(ParserInput(url))
      case None => None
      case Some(q) =>
        match SearchParam(q, LineUidParam)
        case None => None
        case Some(raw) =>
          Some(PlusToSpace(raw))
  }

  /** Trimming `a + m + b`, where `m` starts and ends with a visible character, trims
      only the start of `a` and the end of `b`. */
  lemma TrimJoin(a: string, m: string, b: string)
    requires m != [] && !IsControlOrSpace(m[0]) && !IsControlOrSpace(m[|m| - 1])
    ensures StripTrailing(StripLeading(a + m + b)) == StripLeading(a) + m + StripTrailing(b)
  {
    StripLeadingJoin(a, m, b);
    StripTrailingJoin(StripLeading(a), m, b);
  }

  /** Cleaning `a + m + b`, where `m` starts and ends with a visible character and holds
      no tab or newline, cleans only the start of `a` and the end of `b`. */
  lemma ParserInputOfJoin(a: string, m: string, b: string)
    requires m != [] && !IsControlOrSpace(m[0]) && !IsControlOrSpace(m[|m| - 1])
    requires forall k :: 0 <= k < |m| ==> !IsTabOrNewline(m[k])
    ensures ParserInput(a + m + b)
            == RemoveTabsAndNewlines(StripLeading(a)) + m + RemoveTabsAndNewlines(StripTrailing(b))
  {
    var lead, tail := StripLeading(a), StripTrailing(b);
    TrimJoin(a, m, b);
    assert ParserInput(a + m + b) == RemoveTabsAndNewlines(lead + m + tail);
    RemoveTabsNoop(m);
    RemoveTabsAppend(lead + m, tail);
    RemoveTabsAppend(lead, m);
  }

  /** The `?lineUid=` marker survives the parser's cleaning, and its name needs no decoding. */
  lemma MarkerIsClean()
    ensures var m := LineUidMarker;
      && m != [] && !IsControlOrSpace(m[0]) && !IsControlOrSpace(m[|m| - 1])
      && (forall k :: 0 <= k < |m| ==> !IsTabOrNewline(m[k]))
      && m == ['?'] + LineUidParam + "="
    ensures '&' !in LineUidParam && '=' !in LineUidParam
  {
  }

  /** The parser's input for `base?lineUid=v`: the cleaned base, the marker, the cleaned value. */
  lemma ParserInputOfBuiltUrl(base: string, v: string)
    ensures ParserInput(base + LineUidMarker + v)
            == RemoveTabsAndNewlines(StripLeading(base)) + LineUidMarker + RemoveTabsAndNewlines(StripTrailing(v))
  {
    MarkerIsClean();
    ParserInputOfJoin(base, LineUidMarker, v);
  }

  /** With clean parts, the query of `a?lineUid=w` is `lineUid=w`, which gives `w`. */
  lemma ReadBackClean(a: string, w: string)
    requires '?' !in a && '#' !in a && '&' !in w && '#' !in w
    ensures QueryOf(a + LineUidMarker + w) == Some(LineUidParam + "=" + w)
    ensures SearchParam(LineUidParam + "=" + w, LineUidParam) == Some(w)
  {
    MarkerIsClean();
    var q := LineUidParam + "=" + w;
    assert a + LineUidMarker + w == a + ['?'] + q;
    forall k | 0 <= k < |q| ensures q[k] != '#' {
      if k >= 8 {
        assert q[k] == w[k - 8] && w[k - 8] in w;
      }
    }
    QueryOfBuilt(a, q);
    SearchParamSingle(LineUidParam, w);
  }

  /** Tab and newline removal brings in no character. */
  lemma {:induction false} RemoveTabsAvoids(s: string, c: char)
    requires c !in s
    ensures c !in RemoveTabsAndNewlines(s)
  {
    if s != [] {
      assert s[1..] == s[1..] && (c in s[1..] ==> c in s);
      RemoveTabsAvoids(s[1..], c);
    }
  }

  /** Neither end stripping nor tab removal brings in a character. */
  lemma CleanedAvoids(s: string, c: char)
    requires c !in s
    ensures c !in RemoveTabsAndNewlines(StripLeading(s))
    ensures c !in RemoveTabsAndNewlines(StripTrailing(s))
  {
    var lead, tail := StripLeading(s), StripTrailing(s);
    forall k | 0 <= k < |lead| ensures lead[k] != c {
      assert lead[k] == s[|s| - |lead| + k];
    }
    forall k | 0 <= k < |tail| ensures tail[k] != c {
      assert tail[k] == s[k];
    }
    RemoveTabsAvoids(lead, c);
    RemoveTabsAvoids(tail, c);
  }

  /** A URL built as `base?lineUid=v` yields `v` with its trailing controls and spaces
      and its tabs and newlines gone and each '+' read as a space. */
  lemma LineUidFromAnyBuiltUrl(base: string, v: string)
    requires '?' !in base && '#' !in base && '&' !in v && '#' !in v
    ensures ExtractLineUidFromUrl(base + LineUidMarker + v, true)
            == Some(PlusToSpace(RemoveTabsAndNewlines(StripTrailing(v))))
  {
    var cleanBase := RemoveTabsAndNewlines(StripLeading(base));
    var cleanValue := RemoveTabsAndNewlines(StripTrailing(v));
    ParserInputOfBuiltUrl(base, v);
    CleanedAvoids(base, '?');
    CleanedAvoids(base, '#');
    CleanedAvoids(v, '&');
    CleanedAvoids(v, '#');
    ReadBackClean(cleanBase, cleanValue);
    var url := base + LineUidMarker + v;
    assert ParserInput(url) == cleanBase + LineUidMarker + cleanValue;
    ExtractOfQuery(url, LineUidParam + "=" + cleanValue, cleanValue);
  }

  /** The id read from a URL whose query and raw `lineUid` value are known. */
  lemma ExtractOfQuery(url: string, q: string, raw: string)
    requires QueryOf(ParserInput(url)) == Some(q) && SearchParam(q, LineUidParam) == Some(raw)
    ensures ExtractLineUidFromUrl(url, true) == Some(PlusToSpace(raw))
  {
  }

  /** A URL built as `base?lineUid=v` yields `v` back when `v` holds no '+', no
      percent escape, no tab or newline, and does not end in a control or a space. */
  lemma LineUidFromBuiltUrl(base: string, v: string)
    requires '?' !in base && '#' !in base && '&' !in v && '#' !in v
    requires '+' !in v && '%' !in v && forall c :: c in v ==> !IsTabOrNewline(c)
    requires v == [] || !IsControlOrSpace(v[|v| - 1])
    ensures ExtractLineUidFromUrl(base + LineUidMarker + v, true) == Some(v)
  {
    LineUidFromAnyBuiltUrl(base, v);
    assert StripTrailing(v) == v;
    forall k | 0 <= k < |v| ensures !IsTabOrNewline(v[k]) {
      assert v[k] in v;
    }
    RemoveTabsNoop(v);
    assert PlusToSpace(v) == v by {
      forall k | 0 <= k < |v| ensures v[k] != '+' {
        assert v[k] in v;
      }
    }
  }

  /** The decoding changes what was put in: `x+y` comes back as `x y`. */
  lemma PlusReadAsSpace(base: string, x: char, y: char)
    requires '?' !in base && '#' !in base
    requires x != '&' && x != '#' && x != '+' && !IsTabOrNewline(x)
    requires y != '&' && y != '#' && y != '+' && !IsControlOrSpace(y)
    ensures ExtractLineUidFromUrl(base + LineUidMarker + [x, '+', y], true) == Some([x, ' ', y])
  {
    CleanThreeChars(x, y);
    LineUidFromAnyBuiltUrl(base, [x, '+', y]);
  }

  /** `x+y` survives the parser's cleaning and decodes to `x y`. */
  lemma CleanThreeChars(x: char, y: char)
    requires x != '&' && x != '#' && x != '+' && !IsTabOrNewline(x)
    requires y != '&' && y != '#' && y != '+' && !IsControlOrSpace(y)
    ensures '&' !in [x, '+', y] && '#' !in [x, '+', y]
    ensures PlusToSpace(RemoveTabsAndNewlines(StripTrailing([x, '+', y]))) == [x, ' ', y]
  {
    var v := [x, '+', y];
    assert StripTrailing(v) == v;
    RemoveTabsNoop(v);
    var decoded := PlusToSpace(v);
    assert decoded[0] == x && decoded[1] == ' ' && decoded[2] == y;
  }

  /** The parser changes what was put in: a value followed by a space comes back
      without it. */
  lemma TrailingSpaceDropped(base: string, w: string)
    requires '?' !in base && '#' !in base && '&' !in w && '#' !in w && '+' !in w
    requires (forall k :: 0 <= k < |w| ==> !IsTabOrNewline(w[k]))
    requires w != [] && !IsControlOrSpace(w[|w| - 1])
    ensures ExtractLineUidFromUrl(base + LineUidMarker + (w + " "), true) == Some(w)
  {
    var spaced := w + " ";
    assert '&' !in spaced && '#' !in spaced;
    LineUidFromAnyBuiltUrl(base, spaced);
    assert spaced[..|w|] == w && IsControlOrSpace(spaced[|w|]);
    assert StripTrailing(spaced) == StripTrailing(w);
    assert StripTrailing(w) == w;
    RemoveTabsNoop(w);
    assert PlusToSpace(w) == w by {
      forall k | 0 <= k < |w| ensures w[k] != '+' {
        assert w[k] in w;
      }
    }
  }

  /** The query of `base?q`, when `base` holds no '?' and neither holds a '#'. */
  lemma QueryOfBuilt(base: string, q: string)
    requires '?' !in base && '#' !in base && '#' !in q
    ensures QueryOf(base + ['?'] + q) == Some(q)
  {
    var url := base + ['?'] + q;
    forall k | 0 <= k < |url| ensures url[k] != '#' {
      if k < |base| {
        assert url[k] == base[k] && base[k] in base;
      } else if k > |base| {
        assert url[k] == q[k - |base| - 1] && q[k - |base| - 1] in q;
      }
    }
    assert FirstIndex(url, (c: char) => c == '#').None?;
    forall k | 0 <= k < |base| ensures url[k] != '?' {
      assert url[k] == base[k] && base[k] in base;
    }
    assert url[|base|] == '?';
    assert FirstIndex(url, (c: char) => c == '?') == Some(|base|);
    assert url[|base| + 1..] == q;
  }

  /** A query made of the one pair `name=v` gives `v` for `name`. */
  lemma SearchParamSingle(name: string, v: string)
    requires '&' !in name && '=' !in name && '&' !in v
    ensures SearchParam(name + "=" + v, name) == Some(v)
  {
    var q := name + "=" + v;
    forall k | 0 <= k < |q| ensures q[k] != '&' {
      if k < |name| {
        assert q[k] == name[k] && name[k] in name;
      } else if k > |name| {
        assert q[k] == v[k - |name| - 1] && v[k - |name| - 1] in v;
      }
    }
    assert CharIndex(q, '&').None?;
    assert Split(q, '&') == [q];
    forall k | 0 <= k < |name| ensures q[k] != '=' {
      assert q[k] == name[k] && name[k] in name;
    }
    assert q[|name|] == '=';
    assert FirstIndex(q, (c: char) => c == '=') == Some(|name|);
    assert q[..|name|] == name && q[|name| + 1..] == v;
  }

  /** `extractLineUidFromRequest`: a non-empty `x-line-uid` header wins; otherwise the
      `lineUid` of the referer, when there is a referer and it carries a non-empty one;
      otherwise null. */
  function ExtractLineUidFromRequest(header: Option<string>, referer: Option<string>,
                                     refererParses: bool): (r: Option<string>)
    ensures Truthy(header) ==> r == header
    ensures !Truthy(header) && Truthy(referer) ==>
      r == (var u := ExtractLineUidFromUrl(referer.value, refererParses); if Truthy(u) then u else None)
    ensures !Truthy(header) && !Truthy(referer) ==> r.None?
    ensures r.None? || r.value != ""
  {
    if Truthy(header) then header
    else if Truthy(referer) then
      var u := ExtractLineUidFromUrl(referer.value, refererParses);
      if Truthy(u) then u else None
    else None
  }

  // ---------------------------------------------------------------------------
  // Browser storage

  const SessionKey: string := "pendingLineUid"
  const LocalKey: string := "lineUid"

  /** `storage.getItem(key)` read through `if (value)`: present and non-empty. */
  function GetItem(store: map<string, string>, key: string): (r: Option<string>)
    ensures r.Some? <==> key in store && store[key] != ""
    ensures r.Some? ==> r.value == store[key]
  {
    if key in store && store[key] != "" then Some(store[key]) else None
  }

  /** The two Web Storage areas of a browser tab. On the server there is no `window`,
      and every operation does nothing and reads null. */
  class BrowserStorage {
    const hasWindow: bool
    var session: map<string, string>
    var local: map<string, string>

    constructor (hasWindow: bool)
      ensures this.hasWindow == hasWindow && session == map[] && local == map[]
    {
      this.hasWindow := hasWindow;
      session, local := map[], map[];
    }

    /** `storeLineUidInSession` */
    method StoreLineUidInSession(lineUid: string)
      modifies this
      ensures session == if hasWindow then old(session)[SessionKey := lineUid] else old(session)
      ensures local == old(local)
    {
      if hasWindow {
        session := session[SessionKey := lineUid];
      }
    }

    /** `retrieveLineUidFromSession`: a stored non-empty id is returned and removed. */
    method RetrieveLineUidFromSession() returns (r: Option<string>)
      modifies this
      ensures r == if hasWindow then GetItem(old(session), SessionKey) else None
      ensures session == if r.Some? then old(session) - {SessionKey} else old(session)
      ensures local == old(local)
    {
      r := None;
      if hasWindow {
        var item := GetItem(session, SessionKey);
        if item.Some? {
          session := session - {SessionKey};
          r := item;
        }
      }
    }

    /** `storeLineUidInLocalStorage` */
    method StoreLineUidInLocalStorage(lineUid: string)
      modifies this
      ensures local == if hasWindow then old(local)[LocalKey := lineUid] else old(local)
      ensures session == old(session)
    {
      if hasWindow {
        local := local[LocalKey := lineUid];
      }
    }

    /** `retrieveLineUidFromLocalStorage`: reads without removing. */
    method RetrieveLineUidFromLocalStorage() returns (r: Option<string>)
      ensures r == if hasWindow then GetItem(local, LocalKey) else None
    {
      r := None;
      if hasWindow {
        r := GetItem(local, LocalKey);
      }
    }

    /** `clearLineUidFromLocalStorage` */
    method ClearLineUidFromLocalStorage()
      modifies this
      ensures local == if hasWindow then old(local) - {LocalKey} else old(local)
      ensures session == old(session)
    {
      if hasWindow {
        local := local - {LocalKey};
      }
    }
  }

  /** Session retrieval is one-shot: a second read right after the first gives null. */
  method SessionRetrieveIsOneShot(st: BrowserStorage) returns (first: Option<string>, second: Option<string>)
    modifies st
    ensures first == if st.hasWindow then GetItem(old(st.session), SessionKey) else None
    ensures second.None?
  {
    first := st.RetrieveLineUidFromSession();
    second := st.RetrieveLineUidFromSession();
  }

  /** Local storage: a stored non-empty id reads back, twice, and is gone after clearing. */
  method LocalStorageRoundTrip(st: BrowserStorage, lineUid: string)
    returns (first: Option<string>, second: Option<string>, afterClear: Option<string>)
    requires st.hasWindow && lineUid != ""
    modifies st
    ensures first == Some(lineUid) && second == Some(lineUid)
    ensures afterClear.None?
  {
    st.StoreLineUidInLocalStorage(lineUid);
    first := st.RetrieveLineUidFromLocalStorage();
    second := st.RetrieveLineUidFromLocalStorage();
    st.ClearLineUidFromLocalStorage();
    afterClear := st.RetrieveLineUidFromLocalStorage();
  }

  /** Session storage: a stored non-empty id reads back once. */
  method SessionStorageRoundTrip(st: BrowserStorage, lineUid: string) returns (r: Option<string>)
    requires st.hasWindow && lineUid != ""
    modifies st
    ensures r == Some(lineUid)
    ensures SessionKey !in st.session
  {
    st.StoreLineUidInSession(lineUid);
    r := st.RetrieveLineUidFromSession();
  }
}
