/**
 * The playlist reference recogniser of `importNcmSheet`, written out by
 * hand for its one regular expression, which has four alternatives:
 *
 *   1. `https://y.music.163?com/m/playlist?id=<digits>`
 *   2. `http(s)://music.163.com/playlist/<digits>/<anything>`
 *   3. `http(s)://music?163?com[/#]/playlist?id=<digits>`
 *   4. `^<blanks><digits><blanks>$`
 *
 * where `?` stands for an unescaped `.`.  The pattern has no `u` flag, so
 * `.` takes one UTF-16 code unit that is not a line terminator: a
 * character outside the Basic Multilingual Plane, two code units, never
 * fits it (the next literal would have to match a low surrogate).
 *
 * Like `String.prototype.match`, the search takes the leftmost position
 * where some alternative matches, and at that position
 * the first alternative that does; inside an alternative, the optional
 * `s` and `/#` are tried present first, and digit runs are greedy.
 * Alternatives 1 to 3 may start anywhere in the input; alternative 4 is
 * anchored to the whole input.
 */
module Resolver {
  import opened Common

  // ---------------------------------------------------------------------------
  // Character classes

  /** ECMAScript LineTerminator: what `.` does not match. */
  predicate IsLineTerminator(c: char) {
    c == '\n' || c == '\r' || c as int == 0x2028 || c as int == 0x2029
  }

  /** ECMAScript `\s`: WhiteSpace and LineTerminator. */
  predicate IsBlank(c: char) {
    var n := c as int;
    c == ' ' || c == '\t' || n == 0x0B || n == 0x0C || n == 0xA0 || n == 0x1680
    || (0x2000 <= n <= 0x200A) || n == 0x202F || n == 0x205F || n == 0x3000 || n == 0xFEFF
    || IsLineTerminator(c)
  }

  // ---------------------------------------------------------------------------
  // Fixed parts of the pattern

  /** One position of a fixed pattern part: a literal character or an unescaped `.`. */
  datatype PatChar = Lit(c: char) | Wild

  function Lits(s: string): seq<PatChar> {
    seq(|s|, i requires 0 <= i < |s| => Lit(s[i]))
  }

  /** A character that is one UTF-16 code unit (Dafny characters exclude surrogates). */
  predicate IsCodeUnit(c: char) {
    c as int < 0x10000
  }

  predicate Fits(p: PatChar, c: char) {
    match p
    case Lit(x) => c == x
    case Wild => !IsLineTerminator(c) && IsCodeUnit(c)
  }

  /** The fixed part `t` matches `s` at position `p`. */
  predicate TemplateAt(s: string, p: nat, t: seq<PatChar>) {
    p + |t| <= |s| && forall i {:trigger t[i]} :: 0 <= i < |t| ==> Fits(t[i], s[p + i])
  }

  /** Alternative 1: the short-link host; the dot before `com` is unescaped. */
  const ShortLink: seq<PatChar> := Lits("https://y.music.163") + [Wild] + Lits("com/m/playlist?id=")

  /** The playlist path prefix for one scheme. */
  function PathUrl(scheme: string): string {
    scheme + "://music.163.com/playlist/"
  }

  /** Alternative 2, for one scheme. */
  function PathLink(scheme: string): seq<PatChar> {
    Lits(PathUrl(scheme))
  }

  /** Alternative 3, for one scheme and one tail; both dots of the host are unescaped. */
  function CanonicalLink(scheme: string, tail: string): seq<PatChar> {
    Lits(scheme + "://music") + [Wild] + Lits("163") + [Wild] + Lits("com") + Lits(tail)
  }

  const WithHash := "/#/playlist?id="
  const WithoutHash := "/playlist?id="

  // ---------------------------------------------------------------------------
  // Runs

  /** The length of the run of digits starting at `q`: the greedy `\d+`. */
  function DigitRun(s: string, q: nat): (n: nat)
    requires q <= |s|
    ensures q + n <= |s|
    ensures forall i :: q <= i < q + n ==> IsDigit(s[i])
    ensures q + n < |s| ==> !IsDigit(s[q + n])
    decreases |s| - q
  {
    if q < |s| && IsDigit(s[q]) then 1 + DigitRun(s, q + 1) else 0
  }

  /** The length of the run of blanks starting at `q`: the greedy `\s*`. */
  function BlankRun(s: string, q: nat): (n: nat)
    requires q <= |s|
    ensures q + n <= |s|
    ensures forall i :: q <= i < q + n ==> IsBlank(s[i])
    ensures q + n < |s| ==> !IsBlank(s[q + n])
    decreases |s| - q
  {
    if q < |s| && IsBlank(s[q]) then 1 + BlankRun(s, q + 1) else 0
  }

  // ---------------------------------------------------------------------------
  // The alternatives

  /**
   * The fixed part `t` at `p`, then a non-empty digit run (and, if
   * `slashAfter`, a `/` after it): the digits are the capture.
   */
  function Attempt(s: string, p: nat, t: seq<PatChar>, slashAfter: bool): Option<string> {
    var q := p + |t|;
    if TemplateAt(s, p, t) && DigitRun(s, q) > 0
      && (!slashAfter || (q + DigitRun(s, q) < |s| && s[q + DigitRun(s, q)] == '/'))
    then Some(s[q..q + DigitRun(s, q)])
    else None
  }

  /** Ordered choice: the first way that succeeds. */
  function Or(a: Option<string>, b: Option<string>): Option<string> {
    if a.Some? then a else b
  }

  function ShortLinkAt(s: string, p: nat): Option<string> {
    Attempt(s, p, ShortLink, false)
  }

  function PathLinkAt(s: string, p: nat): Option<string> {
    Or(Attempt(s, p, PathLink("https"), true), Attempt(s, p, PathLink("http"), true))
  }

  function CanonicalLinkAt(s: string, p: nat): Option<string> {
    Or(Attempt(s, p, CanonicalLink("https", WithHash), false),
    Or(Attempt(s, p, CanonicalLink("https", WithoutHash), false),
    Or(Attempt(s, p, CanonicalLink("http", WithHash), false),
       Attempt(s, p, CanonicalLink("http", WithoutHash), false))))
  }

  /** Alternative 4: the whole input is blanks, digits, blanks. */
  function BareId(s: string): (r: Option<string>)
    ensures r.Some? ==> IsIdAt(s, BlankRun(s, 0), r.value)
    ensures r.Some? ==> AllBlank(s[..BlankRun(s, 0)]) && AllBlank(s[BlankRun(s, 0) + |r.value|..])
  {
    var w := BlankRun(s, 0);
    var n := DigitRun(s, w);
    if n > 0 && w + n + BlankRun(s, w + n) == |s| then Some(s[w..w + n]) else None
  }

  /** A match: which alternative (1 to 4) matched and what its capture group holds. */
  datatype RegexMatch = RegexMatch(alternative: nat, capture: string)

  /** The regular expression tried at position `p`, alternatives in order. */
  function MatchAt(s: string, p: nat): (r: Option<RegexMatch>)
    ensures r.None? <==> ShortLinkAt(s, p).None? && PathLinkAt(s, p).None? && CanonicalLinkAt(s, p).None?
                         && (p != 0 || BareId(s).None?)
    ensures r.Some? ==> 1 <= r.value.alternative <= 4 && r.value.capture != ""
    ensures r.Some? && r.value.alternative == 4 ==> p == 0
  {
    if ShortLinkAt(s, p).Some? then Some(RegexMatch(1, ShortLinkAt(s, p).value))
    else if PathLinkAt(s, p).Some? then Some(RegexMatch(2, PathLinkAt(s, p).value))
    else if CanonicalLinkAt(s, p).Some? then Some(RegexMatch(3, CanonicalLinkAt(s, p).value))
    else if p == 0 && BareId(s).Some? then Some(RegexMatch(4, BareId(s).value))
    else None
  }

  /** The first of `f(p)`, `f(p + 1)`, ..., `f(n)` that is present. */
  function FirstSome<T>(f: nat -> Option<T>, p: nat, n: nat): (r: Option<T>)
    requires p <= n
    ensures r.Some? ==> exists q :: p <= q <= n && r == f(q)
    decreases n - p
  {
    if f(p).Some? then f(p)
    else if p == n then None
    else FirstSome(f, p + 1, n)
  }

  /** `urlLike.match(pattern)`: the match at the leftmost position from `p` on. */
  function FirstMatch(s: string, p: nat): (r: Option<RegexMatch>)
    requires p <= |s|
    ensures r.Some? ==> 1 <= r.value.alternative <= 4 && r.value.capture != ""
  {
    FirstSome((q: nat) => MatchAt(s, q), p, |s|)
  }

  /** Group `k` of a match: the capture for the alternative that matched, `undefined` for the others. */
  function Group(m: RegexMatch, k: nat): Option<string> {
    if m.alternative == k then Some(m.capture) else None
  }

  predicate Truthy(g: Option<string>) {
    g.Some? && g.value != ""
  }

  /** `matchResult[1] || matchResult[2] || matchResult[3] || matchResult[4]`, `None` when all are falsy. */
  function ExtractId(m: RegexMatch): (r: Option<string>)
    ensures r.Some? ==> r.value == m.capture && m.capture != "" && 1 <= m.alternative <= 4
    ensures 1 <= m.alternative <= 4 && m.capture != "" ==> r == Some(m.capture)
  {
    if Truthy(Group(m, 1)) then Group(m, 1)
    else if Truthy(Group(m, 2)) then Group(m, 2)
    else if Truthy(Group(m, 3)) then Group(m, 3)
    else if Truthy(Group(m, 4)) then Group(m, 4)
    else None
  }

  datatype ResolveError = UnrecognizedReference | NoIdExtracted

  /** The id extraction of `importNcmSheet`, with its two errors. */
  function Resolve(urlLike: string): (r: Result<string, ResolveError>)
    ensures r.Err? <==> FirstMatch(urlLike, 0).None?
    ensures r.Err? ==> r.error == UnrecognizedReference
    ensures r.Ok? ==> r.value == FirstMatch(urlLike, 0).value.capture
  {
    match FirstMatch(urlLike, 0)
    case None => Err(UnrecognizedReference)
    case Some(m) =>
      match ExtractId(m)
      case None => Err(NoIdExtracted)
      case Some(id) => Ok(id)
  }

  // ---------------------------------------------------------------------------
  // The search

  /**
   * `FirstSome` finds the leftmost present value: it is `f(q)` for some
   * `q` in range and every `f(j)` before `q` is absent; it finds nothing
   * exactly when every `f(q)` in range is absent.
   */
  lemma {:induction false} FirstSomeIsLeftmost<T>(f: nat -> Option<T>, p: nat, n: nat)
    requires p <= n
    ensures FirstSome(f, p, n).None? <==> forall q :: p <= q <= n ==> f(q).None?
    ensures FirstSome(f, p, n).Some? ==>
      exists q :: p <= q <= n && FirstSome(f, p, n) == f(q) && forall j :: p <= j < q ==> f(j).None?
    decreases n - p
  {
    if f(p).None? && p < n {
      FirstSomeIsLeftmost(f, p + 1, n);
      if FirstSome(f, p, n).Some? {
        var q :| p + 1 <= q <= n && FirstSome(f, p + 1, n) == f(q) && forall j :: p + 1 <= j < q ==> f(j).None?;
        assert forall j :: p <= j < q ==> f(j).None?;
      }
    }
  }

  /** The match `FirstMatch` finds is the leftmost one. */
  lemma FirstMatchIsLeftmost(s: string, p: nat)
    requires p <= |s|
    ensures FirstMatch(s, p).None? <==> forall q :: p <= q <= |s| ==> MatchAt(s, q).None?
    ensures FirstMatch(s, p).Some? ==>
      exists q :: p <= q <= |s| && FirstMatch(s, p) == MatchAt(s, q) && forall j :: p <= j < q ==> MatchAt(s, j).None?
  {
    var f := (q: nat) => MatchAt(s, q);
    FirstSomeIsLeftmost(f, p, |s|);
    assert forall q :: f(q) == MatchAt(s, q);
  }

  /** Exactly one group is defined, and it is non-empty: `||` picks it. */
  lemma ExtractIdOfMatch(m: RegexMatch)
    requires 1 <= m.alternative <= 4 && m.capture != ""
    ensures ExtractId(m) == Some(m.capture)
  {
  }

  /** A match at the start decides the result. */
  lemma ResolveAtStart(s: string, m: RegexMatch)
    requires MatchAt(s, 0) == Some(m) && 1 <= m.alternative <= 4 && m.capture != ""
    ensures Resolve(s) == Ok(m.capture)
  {
    ExtractIdOfMatch(m);
  }

  /** The short link matches at the start. */
  lemma ResolveShortLink(s: string, d: string)
    requires ShortLinkAt(s, 0) == Some(d) && d != ""
    ensures Resolve(s) == Ok(d)
  {
    ResolveAtStart(s, RegexMatch(1, d));
  }

  /** Alternative 1 fails at the start and alternative 2 matches there. */
  lemma ResolvePathLink(s: string, d: string)
    requires ShortLinkAt(s, 0).None? && PathLinkAt(s, 0) == Some(d) && d != ""
    ensures Resolve(s) == Ok(d)
  {
    ResolveAtStart(s, RegexMatch(2, d));
  }

  /** Alternatives 1 and 2 fail at the start and alternative 3 matches there. */
  lemma ResolveCanonicalLink(s: string, d: string)
    requires ShortLinkAt(s, 0).None? && PathLinkAt(s, 0).None? && CanonicalLinkAt(s, 0) == Some(d) && d != ""
    ensures Resolve(s) == Ok(d)
  {
    ResolveAtStart(s, RegexMatch(3, d));
  }

  // ---------------------------------------------------------------------------
  // What every match captures

  predicate IsIdAt(s: string, q: nat, id: string) {
    q + |id| <= |s| && s[q..q + |id|] == id && |id| > 0 && AllDigits(id)
  }

  lemma AttemptCapture(s: string, p: nat, t: seq<PatChar>, slashAfter: bool)
    ensures Attempt(s, p, t, slashAfter).Some? ==> IsIdAt(s, p + |t|, Attempt(s, p, t, slashAfter).value)
  {
  }

  lemma BareIdCapture(s: string)
    ensures BareId(s).Some? ==> IsIdAt(s, BlankRun(s, 0), BareId(s).value)
  {
  }

  lemma MatchAtCapture(s: string, p: nat)
    ensures MatchAt(s, p).Some? ==>
      var m := MatchAt(s, p).value;
      1 <= m.alternative <= 4 && exists q :: IsIdAt(s, q, m.capture)
  {
    AttemptCapture(s, p, ShortLink, false);
    AttemptCapture(s, p, PathLink("https"), true);
    AttemptCapture(s, p, PathLink("http"), true);
    AttemptCapture(s, p, CanonicalLink("https", WithHash), false);
    AttemptCapture(s, p, CanonicalLink("https", WithoutHash), false);
    AttemptCapture(s, p, CanonicalLink("http", WithHash), false);
    AttemptCapture(s, p, CanonicalLink("http", WithoutHash), false);
    BareIdCapture(s);
  }

  lemma FirstMatchCapture(s: string)
    ensures FirstMatch(s, 0).Some? ==>
      var m := FirstMatch(s, 0).value;
      1 <= m.alternative <= 4 && exists q :: IsIdAt(s, q, m.capture)
  {
    FirstMatchIsLeftmost(s, 0);
    if FirstMatch(s, 0).Some? {
      var q :| 0 <= q <= |s| && FirstMatch(s, 0) == MatchAt(s, q);
      MatchAtCapture(s, q);
    }
  }

  /**
   * Whenever the pattern matches, the extracted id is a non-empty run of
   * digits taken from the input, so the "no id" error never happens.
   */
  lemma ResolvedIdIsDigits(s: string)
    ensures Resolve(s) != Err(NoIdExtracted)
    ensures Resolve(s).Ok? ==> exists q :: IsIdAt(s, q, Resolve(s).value)
  {
    FirstMatchCapture(s);
    if FirstMatch(s, 0).Some? {
      var m := FirstMatch(s, 0).value;
      var q :| IsIdAt(s, q, m.capture);
      ExtractIdOfMatch(m);
    }
  }

  // ---------------------------------------------------------------------------
  // Inputs without digits

  predicate NoDigits(s: string) {
    forall i :: 0 <= i < |s| ==> !IsDigit(s[i])
  }

  lemma NoDigitsNoAttempt(s: string, p: nat, t: seq<PatChar>, slashAfter: bool)
    requires NoDigits(s)
    ensures Attempt(s, p, t, slashAfter).None?
  {
    if p + |t| < |s| {
      assert !IsDigit(s[p + |t|]);
    }
  }

  lemma NoDigitsNoBareId(s: string)
    requires NoDigits(s)
    ensures BareId(s).None?
  {
    var w := BlankRun(s, 0);
    if w < |s| {
      assert !IsDigit(s[w]);
    }
  }

  lemma NoDigitsNoMatch(s: string, p: nat)
    requires NoDigits(s)
    ensures MatchAt(s, p).None?
  {
    NoDigitsNoAttempt(s, p, ShortLink, false);
    NoDigitsNoAttempt(s, p, PathLink("https"), true);
    NoDigitsNoAttempt(s, p, PathLink("http"), true);
    NoDigitsNoAttempt(s, p, CanonicalLink("https", WithHash), false);
    NoDigitsNoAttempt(s, p, CanonicalLink("https", WithoutHash), false);
    NoDigitsNoAttempt(s, p, CanonicalLink("http", WithHash), false);
    NoDigitsNoAttempt(s, p, CanonicalLink("http", WithoutHash), false);
    NoDigitsNoBareId(s);
  }

  /** An input with no digit at all is not recognised. */
  lemma NoDigitsUnrecognized(s: string)
    requires NoDigits(s)
    ensures Resolve(s) == Err(UnrecognizedReference)
  {
    forall q | 0 <= q <= |s|
      ensures MatchAt(s, q).None?
    {
      NoDigitsNoMatch(s, q);
    }
    FirstMatchIsLeftmost(s, 0);
  }

  lemma NotALink()
    ensures Resolve("not a link") == Err(UnrecognizedReference)
  {
    NoDigitsUnrecognized("not a link");
  }

  // ---------------------------------------------------------------------------
  // Matching a fixed part, and failing to

  /** The fixed part `t` spells out the text `u`. */
  predicate Spells(t: seq<PatChar>, u: string) {
    |t| == |u| && forall i :: 0 <= i < |t| ==> Fits(t[i], u[i])
  }

  lemma SpellsLits(u: string)
    ensures Spells(Lits(u), u)
  {
  }

  lemma SpellsAppend(t1: seq<PatChar>, u1: string, t2: seq<PatChar>, u2: string)
    requires Spells(t1, u1) && Spells(t2, u2)
    ensures Spells(t1 + t2, u1 + u2)
  {
    forall i | 0 <= i < |t1| + |t2|
      ensures Fits((t1 + t2)[i], (u1 + u2)[i])
    {
      if i >= |t1| {
        assert (t1 + t2)[i] == t2[i - |t1|];
        assert (u1 + u2)[i] == u2[i - |u1|];
      }
    }
  }

  lemma TemplateAtSpelled(s: string, p: nat, t: seq<PatChar>, u: string)
    requires Spells(t, u) && p + |u| <= |s| && s[p..p + |u|] == u
    ensures TemplateAt(s, p, t)
  {
    forall i | 0 <= i < |t|
      ensures Fits(t[i], s[p + i])
    {
      assert s[p + i] == s[p..p + |u|][i];
    }
  }

  lemma {:induction false} DigitRunExact(s: string, q: nat, n: nat)
    requires q + n <= |s|
    requires forall i :: q <= i < q + n ==> IsDigit(s[i])
    requires q + n == |s| || !IsDigit(s[q + n])
    ensures DigitRun(s, q) == n
    decreases n
  {
    if n > 0 {
      DigitRunExact(s, q + 1, n - 1);
    }
  }

  lemma {:induction false} BlankRunExact(s: string, q: nat, n: nat)
    requires q + n <= |s|
    requires forall i :: q <= i < q + n ==> IsBlank(s[i])
    requires q + n == |s| || !IsBlank(s[q + n])
    ensures BlankRun(s, q) == n
    decreases n
  {
    if n > 0 {
      BlankRunExact(s, q + 1, n - 1);
    }
  }

  /** `d` is a playlist id followed by `rest`, which does not continue the digits. */
  predicate IdThen(d: string, rest: string) {
    |d| > 0 && AllDigits(d) && (rest == [] || !IsDigit(rest[0]))
  }

  /** A fixed part spelling the start of the input, then an id: the attempt captures the id. */
  lemma AttemptSpelled(s: string, t: seq<PatChar>, u: string, d: string, rest: string, slashAfter: bool)
    requires Spells(t, u) && s == u + d + rest && IdThen(d, rest)
    requires slashAfter ==> |rest| > 0 && rest[0] == '/'
    ensures Attempt(s, 0, t, slashAfter) == Some(d)
  {
    assert s[..|u|] == u;
    TemplateAtSpelled(s, 0, t, u);
    if rest != [] {
      assert s[|u| + |d|] == rest[0];
    }
    DigitRunExact(s, |u|, |d|);
    assert s[|u|..|u| + |d|] == d;
  }

  /** A fixed part whose literal at `i` differs from the input fails at `p`. */
  lemma Mismatch(s: string, p: nat, t: seq<PatChar>, i: nat, c: char, slashAfter: bool)
    requires i < |t| && t[i] == Lit(c) && (p + i >= |s| || s[p + i] != c)
    ensures Attempt(s, p, t, slashAfter).None?
  {
  }

  /** Where the scheme and the tail of a canonical link sit in its fixed part. */
  lemma CanonicalLinkChar(scheme: string, tail: string, i: nat)
    ensures i < |scheme| ==> CanonicalLink(scheme, tail)[i] == Lit(scheme[i])
    ensures |scheme| + 16 <= i < |scheme| + 16 + |tail| ==> CanonicalLink(scheme, tail)[i] == Lit(tail[i - |scheme| - 16])
  {
  }

  /** Alternatives 1 to 3 all begin with `h`. */
  lemma NotAtH(s: string)
    requires |s| > 0 && s[0] != 'h'
    ensures ShortLinkAt(s, 0).None? && PathLinkAt(s, 0).None? && CanonicalLinkAt(s, 0).None?
  {
    assert ShortLink[0] == Lit('h');
    Mismatch(s, 0, ShortLink, 0, 'h', false);
    Mismatch(s, 0, PathLink("https"), 0, 'h', true);
    Mismatch(s, 0, PathLink("http"), 0, 'h', true);
    CanonicalLinkChar("https", WithHash, 0);
    CanonicalLinkChar("https", WithoutHash, 0);
    CanonicalLinkChar("http", WithHash, 0);
    CanonicalLinkChar("http", WithoutHash, 0);
    Mismatch(s, 0, CanonicalLink("https", WithHash), 0, 'h', false);
    Mismatch(s, 0, CanonicalLink("https", WithoutHash), 0, 'h', false);
    Mismatch(s, 0, CanonicalLink("http", WithHash), 0, 'h', false);
    Mismatch(s, 0, CanonicalLink("http", WithoutHash), 0, 'h', false);
  }

  /** Alternative 1 needs `s` at index 4 and `y` at index 8. */
  lemma NotShortLink(s: string, i: nat)
    requires (i == 4 && |s| > 4 && s[4] != 's') || (i == 8 && |s| > 8 && s[8] != 'y')
    ensures ShortLinkAt(s, 0).None?
  {
    assert ShortLink[4] == Lit('s') && ShortLink[8] == Lit('y');
    Mismatch(s, 0, ShortLink, i, if i == 4 then 's' else 'y', false);
  }

  // ---------------------------------------------------------------------------
  // Recognised forms

  predicate AllBlank(s: string) {
    forall i :: 0 <= i < |s| ==> IsBlank(s[i])
  }

  lemma BareIdOf(lead: string, d: string, trail: string)
    requires AllBlank(lead) && AllBlank(trail) && |d| > 0 && AllDigits(d)
    ensures BareId(lead + d + trail) == Some(d)
  {
    var s := lead + d + trail;
    var w := |lead|;
    assert s[w] == d[0];
    BlankRunExact(s, 0, w);
    if trail != [] {
      assert s[w + |d|] == trail[0];
    }
    DigitRunExact(s, w, |d|);
    BlankRunExact(s, w + |d|, |trail|);
    assert s[w..w + |d|] == d;
  }

  /** A bare id, possibly padded with blanks, is taken as it is. */
  lemma BareIdResolves(lead: string, d: string, trail: string)
    requires AllBlank(lead) && AllBlank(trail) && |d| > 0 && AllDigits(d)
    ensures Resolve(lead + d + trail) == Ok(d)
  {
    var s := lead + d + trail;
    BareIdOf(lead, d, trail);
    assert s[0] != 'h' by {
      if |lead| > 0 {
        assert s[0] == lead[0];
      } else {
        assert s[0] == d[0];
      }
    }
    NotAtH(s);
    ResolveAtStart(s, RegexMatch(4, d));
  }

  /** The short link, its unescaped dot standing for any one code unit but a line terminator. */
  lemma ShortLinkResolves(c: char, d: string, rest: string)
    requires !IsLineTerminator(c) && IsCodeUnit(c) && IdThen(d, rest)
    ensures Resolve("https://y.music.163" + [c] + "com/m/playlist?id=" + d + rest) == Ok(d)
  {
    var u := "https://y.music.163" + [c] + "com/m/playlist?id=";
    var s := u + d + rest;
    SpellsLits("https://y.music.163");
    SpellsLits("com/m/playlist?id=");
    assert Spells([Wild], [c]);
    SpellsAppend(Lits("https://y.music.163"), "https://y.music.163", [Wild], [c]);
    SpellsAppend(Lits("https://y.music.163") + [Wild], "https://y.music.163" + [c], Lits("com/m/playlist?id="), "com/m/playlist?id=");
    AttemptSpelled(s, ShortLink, u, d, rest, false);
    ResolveShortLink(s, d);
  }

  /** A character outside the Basic Multilingual Plane in place of the dot: no short link there. */
  lemma ShortLinkNotAcrossPair(c: char, rest: string)
    requires !IsCodeUnit(c)
    ensures ShortLinkAt("https://y.music.163" + [c] + rest, 0).None?
  {
    var s := "https://y.music.163" + [c] + rest;
    assert s[19] == c;
    assert ShortLink[19] == Wild;
  }

  /** The path link `https://music.163.com/playlist/<id>/...`. */
  lemma PathLinkResolvesHttps(d: string, rest: string)
    requires |d| > 0 && AllDigits(d) && |rest| > 0 && rest[0] == '/'
    ensures Resolve(PathUrl("https") + d + rest) == Ok(d)
  {
    var u := PathUrl("https");
    var s := u + d + rest;
    assert s[8] == 'm';
    NotShortLink(s, 8);
    SpellsLits(u);
    AttemptSpelled(s, PathLink("https"), u, d, rest, true);
    ResolvePathLink(s, d);
  }

  /** The path link `http://music.163.com/playlist/<id>/...`. */
  lemma PathLinkResolvesHttp(d: string, rest: string)
    requires |d| > 0 && AllDigits(d) && |rest| > 0 && rest[0] == '/'
    ensures Resolve(PathUrl("http") + d + rest) == Ok(d)
  {
    var u := PathUrl("http");
    var s := u + d + rest;
    assert s[4] == ':';
    NotShortLink(s, 4);
    Mismatch(s, 0, PathLink("https"), 4, 's', true);
    SpellsLits(u);
    AttemptSpelled(s, PathLink("http"), u, d, rest, true);
    ResolvePathLink(s, d);
  }

  /** The canonical playlist link with the given scheme and `/#/playlist?id=` or `/playlist?id=` tail. */
  function CanonicalUrl(scheme: string, tail: string): string {
    scheme + "://music.163.com" + tail
  }

  lemma CanonicalSpells(scheme: string, tail: string)
    ensures Spells(CanonicalLink(scheme, tail), CanonicalUrl(scheme, tail))
  {
    var t1 := Lits(scheme + "://music");
    SpellsLits(scheme + "://music");
    SpellsLits("163");
    SpellsLits("com");
    SpellsLits(tail);
    assert Spells([Wild], ".");
    SpellsAppend(t1, scheme + "://music", [Wild], ".");
    SpellsAppend(t1 + [Wild], scheme + "://music" + ".", Lits("163"), "163");
    SpellsAppend(t1 + [Wild] + Lits("163"), scheme + "://music" + "." + "163", [Wild], ".");
    SpellsAppend(t1 + [Wild] + Lits("163") + [Wild], scheme + "://music" + "." + "163" + ".", Lits("com"), "com");
    SpellsAppend(t1 + [Wild] + Lits("163") + [Wild] + Lits("com"), scheme + "://music" + "." + "163" + "." + "com", Lits(tail), tail);
    assert scheme + "://music" + "." + "163" + "." + "com" + tail == scheme + "://music.163.com" + tail;
  }

  lemma CanonicalCapture(scheme: string, tail: string, d: string, rest: string)
    requires IdThen(d, rest)
    ensures Attempt(CanonicalUrl(scheme, tail) + d + rest, 0, CanonicalLink(scheme, tail), false) == Some(d)
  {
    CanonicalSpells(scheme, tail);
    AttemptSpelled(CanonicalUrl(scheme, tail) + d + rest, CanonicalLink(scheme, tail), CanonicalUrl(scheme, tail), d, rest, false);
  }

  /** `https://music.163.com/#/playlist?id=<id>`. */
  lemma CanonicalHashResolvesHttps(d: string, rest: string)
    requires IdThen(d, rest)
    ensures Resolve(CanonicalUrl("https", WithHash) + d + rest) == Ok(d)
  {
    var s := CanonicalUrl("https", WithHash) + d + rest;
    CanonicalCapture("https", WithHash, d, rest);
    assert s[4] == 's' && s[8] == 'm' && s[22] == '#';
    HttpsHashDecides(s, d);
  }

  lemma HttpsHashDecides(s: string, d: string)
    requires |s| > 22 && s[4] == 's' && s[8] == 'm' && s[22] == '#'
    requires Attempt(s, 0, CanonicalLink("https", WithHash), false) == Some(d) && d != ""
    ensures Resolve(s) == Ok(d)
  {
    NotShortLink(s, 8);
    Mismatch(s, 0, PathLink("https"), 22, 'p', true);
    Mismatch(s, 0, PathLink("http"), 4, ':', true);
    ResolveCanonicalLink(s, d);
  }

  /** `https://music.163.com/playlist?id=<id>`. */
  lemma CanonicalResolvesHttps(d: string, rest: string)
    requires IdThen(d, rest)
    ensures Resolve(CanonicalUrl("https", WithoutHash) + d + rest) == Ok(d)
  {
    var s := CanonicalUrl("https", WithoutHash) + d + rest;
    CanonicalCapture("https", WithoutHash, d, rest);
    assert s[4] == 's' && s[8] == 'm' && s[22] == 'p' && s[30] == '?';
    HttpsDecides(s, d);
  }

  lemma HttpsDecides(s: string, d: string)
    requires |s| > 30 && s[4] == 's' && s[8] == 'm' && s[22] == 'p' && s[30] == '?'
    requires Attempt(s, 0, CanonicalLink("https", WithoutHash), false) == Some(d) && d != ""
    ensures Resolve(s) == Ok(d)
  {
    NotShortLink(s, 8);
    Mismatch(s, 0, PathLink("https"), 30, '/', true);
    Mismatch(s, 0, PathLink("http"), 4, ':', true);
    CanonicalLinkChar("https", WithHash, 22);
    Mismatch(s, 0, CanonicalLink("https", WithHash), 22, '#', false);
    ResolveCanonicalLink(s, d);
  }

  /** `http://music.163.com/#/playlist?id=<id>`. */
  lemma CanonicalHashResolvesHttp(d: string, rest: string)
    requires IdThen(d, rest)
    ensures Resolve(CanonicalUrl("http", WithHash) + d + rest) == Ok(d)
  {
    var s := CanonicalUrl("http", WithHash) + d + rest;
    CanonicalCapture("http", WithHash, d, rest);
    assert s[4] == ':' && s[21] == '#';
    HttpHashDecides(s, d);
  }

  lemma HttpHashDecides(s: string, d: string)
    requires |s| > 21 && s[4] == ':' && s[21] == '#'
    requires Attempt(s, 0, CanonicalLink("http", WithHash), false) == Some(d) && d != ""
    ensures Resolve(s) == Ok(d)
  {
    NotShortLink(s, 4);
    Mismatch(s, 0, PathLink("https"), 4, 's', true);
    Mismatch(s, 0, PathLink("http"), 21, 'p', true);
    CanonicalLinkChar("https", WithHash, 4);
    CanonicalLinkChar("https", WithoutHash, 4);
    Mismatch(s, 0, CanonicalLink("https", WithHash), 4, 's', false);
    Mismatch(s, 0, CanonicalLink("https", WithoutHash), 4, 's', false);
    ResolveCanonicalLink(s, d);
  }

  /** `http://music.163.com/playlist?id=<id>`. */
  lemma CanonicalResolvesHttp(d: string, rest: string)
    requires IdThen(d, rest)
    ensures Resolve(CanonicalUrl("http", WithoutHash) + d + rest) == Ok(d)
  {
    var s := CanonicalUrl("http", WithoutHash) + d + rest;
    CanonicalCapture("http", WithoutHash, d, rest);
    assert s[4] == ':' && s[21] == 'p' && s[29] == '?';
    HttpDecides(s, d);
  }

  lemma HttpDecides(s: string, d: string)
    requires |s| > 29 && s[4] == ':' && s[21] == 'p' && s[29] == '?'
    requires Attempt(s, 0, CanonicalLink("http", WithoutHash), false) == Some(d) && d != ""
    ensures Resolve(s) == Ok(d)
  {
    NotShortLink(s, 4);
    Mismatch(s, 0, PathLink("https"), 4, 's', true);
    Mismatch(s, 0, PathLink("http"), 29, '/', true);
    CanonicalLinkChar("https", WithHash, 4);
    CanonicalLinkChar("https", WithoutHash, 4);
    CanonicalLinkChar("http", WithHash, 21);
    Mismatch(s, 0, CanonicalLink("https", WithHash), 4, 's', false);
    Mismatch(s, 0, CanonicalLink("https", WithoutHash), 4, 's', false);
    Mismatch(s, 0, CanonicalLink("http", WithHash), 21, '#', false);
    ResolveCanonicalLink(s, d);
  }

  // ---------------------------------------------------------------------------
  // Examples

  lemma PaddedIdExample()
    ensures Resolve("  987  ") == Ok("987")
  {
    assert "  987  " == "  " + "987" + "  ";
    BareIdResolves("  ", "987", "  ");
  }

  lemma ShortLinkExample()
    ensures Resolve("https://y.music.163.com/m/playlist?id=12345") == Ok("12345")
  {
    assert "https://y.music.163.com/m/playlist?id=12345" == "https://y.music.163" + ['.'] + "com/m/playlist?id=" + "12345" + "";
    ShortLinkResolves('.', "12345", "");
  }

  /** The unescaped dot lets a short link with any character before `com` through. */
  lemma ShortLinkLooseDotExample()
    ensures Resolve("https://y.music.163Xcom/m/playlist?id=5") == Ok("5")
  {
    assert "https://y.music.163Xcom/m/playlist?id=5" == "https://y.music.163" + ['X'] + "com/m/playlist?id=" + "5" + "";
    ShortLinkResolves('X', "5", "");
  }

  lemma CanonicalExampleSpelling()
    ensures "https://music.163.com/#/playlist?id=2463&userid=7" == CanonicalUrl("https", WithHash) + "2463" + "&userid=7"
  {
    assert CanonicalUrl("https", WithHash) == "https://music.163.com/#/playlist?id=";
  }

  /** A canonical link with a query after the id. */
  lemma CanonicalLinkExample()
    ensures Resolve("https://music.163.com/#/playlist?id=2463&userid=7") == Ok("2463")
  {
    CanonicalExampleSpelling();
    CanonicalHashResolvesHttps("2463", "&userid=7");
  }
}
