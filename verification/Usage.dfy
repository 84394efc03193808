/** The usage object of a response (internal/gateway/tokens.go): which texts it is read from, and what is read. Bytes
    are characters. */
module Usage {
  import opened Prelude
  import Scanner

  const USAGE := "\"usage\""
  const PROMPT := "\"prompt_tokens\""
  const COMPLETION := "\"completion_tokens\""
  const MAX_EVENT_TOKENS := 10_000_000_000

  // ------------------------------------------------------------------ a plain number

  predicate IsDigit(c: char) { '0' <= c <= '9' }

  predicate AllDigits(s: string) { forall i :: 0 <= i < |s| ==> IsDigit(s[i]) }

  function Value(s: string): nat
    requires AllDigits(s)
  {
    if s == "" then 0 else 10 * Value(s[..|s| - 1]) + (s[|s| - 1] as int - '0' as int)
  }

  /** What may follow a number. */
  predicate Ends(c: char) { c == ',' || c == '}' || c == ' ' || c == '\t' || c == '\n' || c == '\r' }

  /** The text begins with the decimal numeral of n, without a leading zero or anything more to the number, and n is
      not too large. */
  predicate Numeral(b: string, k: nat, n: nat) {
    && 0 < k < |b| && AllDigits(b[..k]) && (k == 1 || b[0] != '0') && Ends(b[k])
    && Value(b[..k]) == n <= MAX_EVENT_TOKENS
  }

  ghost predicate Begins(b: string, n: nat) { exists k: nat :: Numeral(b, k, n) }

  function Ten(k: nat): nat { if k == 0 then 1 else 10 * Ten(k - 1) }

  lemma {:induction false} ManyDigits(s: string)
    requires AllDigits(s) && s != "" && s[0] != '0'
    ensures Value(s) >= Ten(|s| - 1)
  {
    if |s| > 1 {
      ManyDigits(s[..|s| - 1]);
    } else {
      assert s[..0] == "";
    }
  }

  lemma {:induction false} TenGrows(j: nat, k: nat)
    requires j <= k
    ensures Ten(j) <= Ten(k)
  {
    if j < k { TenGrows(j, k - 1); }
  }

  /** More digits than the largest allowed count has make a number too large, or one with a leading zero. */
  lemma TooManyDigits(b: string, k: nat, n: nat)
    requires k > 11
    ensures !Numeral(b, k, n)
  {
    TenGrows(11, k - 1);
    TenEleven();
    if Numeral(b, k, n) { ManyDigits(b[..k]); }
  }

  lemma TenEleven()
    ensures Ten(11) == 100_000_000_000
  {
    assert Ten(4) == 10_000 && Ten(8) == 10_000 * Ten(4);
  }

  /** How many digits the text begins with. */
  function Run(b: string): (k: nat)
    ensures k <= |b| && AllDigits(b[..k]) && (k < |b| ==> !IsDigit(b[k]))
  {
    if b == "" || !IsDigit(b[0]) then 0
    else
      var k := Run(b[1..]);
      assert forall i :: 0 <= i < k + 1 ==> b[i] == if i == 0 then b[0] else b[1..][..k][i - 1];
      k + 1
  }

  /** The number that the text begins with. */
  function NumberOf(b: string): Option<nat> {
    var k := Run(b);
    var n := Value(b[..k]);
    if Numeral(b, k, n) then Some(n) else None
  }

  /** A numeral ends where its digits end. */
  lemma NumeralEnds(b: string, k: nat, n: nat)
    requires Numeral(b, k, n)
    ensures k == Run(b)
  {
  }

  lemma NumberIsNumeral(b: string, n: nat)
    ensures NumberOf(b) == Some(n) <==> Begins(b, n)
  {
    if k: nat :| Numeral(b, k, n) { NumeralEnds(b, k, n); }
  }

  /** The digits are read while there are any, eleven at most. */
  method ReadNumber(b: string) returns (r: Option<nat>)
    ensures r == NumberOf(b)
  {
    var n, digits := 0, 0;
    while digits < |b| && IsDigit(b[digits])
      invariant digits <= Run(b) && digits <= 11 && AllDigits(b[..digits]) && Value(b[..digits]) == n
    {
      assert digits < Run(b) by { RunIsLongest(b, digits); }
      if digits >= 11 {
        TooManyDigits(b, Run(b), Value(b[..Run(b)]));
        return None;
      }
      assert b[..digits + 1][..digits] == b[..digits];
      n, digits := n * 10 + (b[digits] as int - '0' as int), digits + 1;
    }
    assert digits == Run(b);
    if digits == 0 || (digits > 1 && b[0] == '0') || n > MAX_EVENT_TOKENS || digits == |b| || !Ends(b[digits]) {
      return None;
    }
    return Some(n);
  }

  lemma RunIsLongest(b: string, digits: nat)
    requires digits < |b| && digits <= Run(b) && IsDigit(b[digits])
    ensures digits < Run(b)
  {
  }

  // ------------------------------------------------------------------ a count under a key

  predicate IsAt(b: string, key: string, p: int) { 0 <= p <= |b| - |key| && b[p..p + |key|] == key }

  /** The first place at or after pos where the key stands. */
  function Index(b: string, key: string, pos: nat): (r: Option<nat>)
    requires pos <= |b|
    ensures r.Some? ==> pos <= r.value <= |b| - |key|
    decreases |b| - pos
  {
    if IsAt(b, key, pos) then Some(pos) else if pos == |b| then None else Index(b, key, pos + 1)
  }

  lemma {:induction false} IndexIsFirst(b: string, key: string, pos: nat)
    requires pos <= |b|
    ensures match Index(b, key, pos)
            case Some(s) => IsAt(b, key, s) && forall p :: pos <= p < s ==> !IsAt(b, key, p)
            case None => forall p :: pos <= p ==> !IsAt(b, key, p)
    decreases |b| - pos
  {
    if !IsAt(b, key, pos) && pos < |b| { IndexIsFirst(b, key, pos + 1); }
  }

  predicate Blank(c: char) { c == ' ' || c == '\t' || c == '\n' || c == '\r' }

  /** The text without the blanks, or other such bytes, that it begins with. */
  function Skip(b: string, blank: char -> bool): string { if b != "" && blank(b[0]) then Skip(b[1..], blank) else b }

  method SkipBlanks(b: string, blank: char -> bool) returns (r: string)
    ensures r == Skip(b, blank)
  {
    r := b;
    while |r| > 0 && blank(r[0])
      invariant Skip(r, blank) == Skip(b, blank)
    {
      r := r[1..];
    }
  }

  /** What follows the colon after a key. */
  function AfterColon(b: string): Option<string> {
    var c := Skip(b, Blank);
    if c == "" || c[0] != ':' then None else Some(Skip(c[1..], Blank))
  }

  /** A key in quotes: two of them overlap in a quote at most, and then a letter follows the first. */
  predicate Quoted(key: string) {
    && |key| >= 3 && key[0] == '"' && key[|key| - 1] == '"' && (forall i :: 0 < i < |key| - 1 ==> key[i] != '"')
    && !Blank(key[1]) && key[1] != ':' && key[1] != '{'
  }

  lemma AtIs(b: string, key: string, p: int, i: nat)
    requires IsAt(b, key, p) && i < |key|
    ensures b[p + i] == key[i]
  {
    assert b[p..p + |key|][i] == key[i];
  }

  lemma QuotedOverlap(b: string, key: string, p: int, q: int)
    requires Quoted(key) && IsAt(b, key, p) && IsAt(b, key, q) && p < q < p + |key|
    ensures q == p + |key| - 1 && p + |key| < |b| && b[p + |key|] == key[1]
  {
    AtIs(b, key, p, q - p);
    AtIs(b, key, q, 0);
    AtIs(b, key, q, 1);
  }

  /** The number that follows a key, after a colon. */
  function ValueAfter(b: string): Option<nat> {
    var v := AfterColon(b);
    if v.None? then None else NumberOf(v.value)
  }

  method ReadValue(b: string) returns (r: Option<nat>)
    ensures r == ValueAfter(b)
  {
    var c := SkipBlanks(b, Blank);
    if c == "" || c[0] != ':' { return None; }
    c := SkipBlanks(c[1..], Blank);
    r := ReadNumber(c);
  }

  /** A plain number n follows a colon. */
  ghost predicate Says(b: string, n: nat) { var v := AfterColon(b); v.Some? && Begins(v.value, n) }

  lemma ValueIsSaid(b: string, n: nat)
    ensures ValueAfter(b) == Some(n) <==> Says(b, n)
  {
    var v := AfterColon(b);
    if v.Some? { NumberIsNumeral(v.value, n); }
  }

  /** The key's only place, as the code finds it: nothing after the first one. */
  function OnlyAt(obj: string, key: string): (r: Option<nat>)
    ensures r.Some? ==> r.value + |key| <= |obj|
  {
    var i := Index(obj, key, 0);
    if i.None? || Index(obj, key, i.value + |key|).Some? then None else i
  }

  /** The count under a key that stands exactly once. */
  function CountOf(obj: string, key: string): Option<nat> {
    var i := OnlyAt(obj, key);
    if i.None? then None else ValueAfter(obj[i.value + |key|..])
  }

  method UniqueCount(obj: string, key: string) returns (r: Option<nat>)
    ensures r == CountOf(obj, key)
  {
    var i := OnlyAt(obj, key);
    if i.None? { return None; }
    r := ReadValue(obj[i.value + |key|..]);
  }

  /** The key stands at p and nowhere else. */
  ghost predicate Alone(obj: string, key: string, p: nat) {
    IsAt(obj, key, p) && forall q :: IsAt(obj, key, q) ==> q == p
  }

  /** The key stands at p and nowhere else, and a plain number n follows it after a colon. */
  ghost predicate OnlyCount(obj: string, key: string, p: nat, n: nat) {
    Alone(obj, key, p) && Says(obj[p + |key|..], n)
  }

  /** What is accepted under a key is exactly one plain number within the bound. */
  lemma CountIsOnly(obj: string, key: string, n: nat)
    requires Quoted(key)
    ensures CountOf(obj, key) == Some(n) <==> exists p: nat :: OnlyCount(obj, key, p, n)
  {
    if CountOf(obj, key) == Some(n) {
      var p := OnlyAt(obj, key).value;
      ValueIsSaid(obj[p + |key|..], n);
      StandsOnce(obj, key, p);
      assert OnlyCount(obj, key, p, n);
    }
    if p: nat :| OnlyCount(obj, key, p, n) {
      AloneIsFound(obj, key, p);
      ValueIsSaid(obj[p + |key|..], n);
    }
  }

  lemma AloneIsFound(obj: string, key: string, p: nat)
    requires Quoted(key) && Alone(obj, key, p)
    ensures OnlyAt(obj, key) == Some(p)
  {
    IndexIsFirst(obj, key, 0);
    IndexIsFirst(obj, key, p + |key|);
  }

  lemma StandsOnce(obj: string, key: string, p: nat)
    requires Quoted(key) && OnlyAt(obj, key) == Some(p) && AfterColon(obj[p + |key|..]).Some?
    ensures Alone(obj, key, p)
  {
    OnlyAtIs(obj, key, p);
    AloneByParts(obj, key, p);
  }

  ghost predicate NotElsewhere(obj: string, key: string, p: nat) {
    forall q :: IsAt(obj, key, q) ==> p <= q < p + |key|
  }

  lemma OnlyAtIs(obj: string, key: string, p: nat)
    requires OnlyAt(obj, key) == Some(p)
    ensures IsAt(obj, key, p) && NotElsewhere(obj, key, p)
  {
    IndexIsFirst(obj, key, 0);
    IndexIsFirst(obj, key, p + |key|);
  }

  lemma AloneByParts(obj: string, key: string, p: nat)
    requires Quoted(key) && IsAt(obj, key, p) && NotElsewhere(obj, key, p) && AfterColon(obj[p + |key|..]).Some?
    ensures Alone(obj, key, p)
  {
    forall q | IsAt(obj, key, q) ensures q == p { StandsNoLater(obj, key, p, q); }
  }

  lemma StandsNoLater(obj: string, key: string, p: nat, q: nat)
    requires Quoted(key) && IsAt(obj, key, p) && IsAt(obj, key, q) && AfterColon(obj[p + |key|..]).Some?
    requires q < p + |key|
    ensures q <= p
  {
    if p < q { NoOverlap(obj, key, p, q); }
  }

  lemma NoOverlap(obj: string, key: string, p: nat, q: nat)
    requires Quoted(key) && IsAt(obj, key, p) && IsAt(obj, key, q) && p < q < p + |key|
    ensures AfterColon(obj[p + |key|..]).None?
  {
    QuotedOverlap(obj, key, p, q);
    var b := obj[p + |key|..];
    assert b[0] == key[1];
  }

  lemma KeysAreQuoted()
    ensures Quoted(USAGE) && Quoted(PROMPT) && Quoted(COMPLETION)
  {
  }

  // ------------------------------------------------------------------ the object

  /** Where a byte stands: outside strings, inside one, or after a backslash inside one. */
  datatype Mode = Outside | Inside | Escaped

  /** How many braces are open, braces in strings apart. */
  datatype Lex = Lex(depth: int, mode: Mode)

  function LexNext(l: Lex, c: char): Lex {
    match l.mode
    case Escaped => l.(mode := Inside)
    case Inside => if c == '\\' then l.(mode := Escaped) else if c == '"' then l.(mode := Outside) else l
    case Outside =>
      if c == '"' then l.(mode := Inside)
      else if c == '{' then l.(depth := l.depth + 1)
      else if c == '}' then l.(depth := l.depth - 1) else l
  }

  function LexAt(b: string, n: nat): Lex
    requires n <= |b|
  {
    if n == 0 then Lex(0, Outside) else LexNext(LexAt(b, n - 1), b[n - 1])
  }

  predicate Level(b: string, n: nat) { n <= |b| && LexAt(b, n) == Lex(0, Outside) }

  /** The first n bytes are the object that the text begins with: the shortest piece in which every brace is closed. */
  predicate IsObject(b: string, n: nat) { 0 < n && Level(b, n) && forall j :: 0 < j < n ==> !Level(b, j) }

  /** The end of the object, from n on. */
  function EndFrom(b: string, n: nat): (r: Option<nat>)
    requires n <= |b|
    ensures r.Some? ==> n <= r.value <= |b|
    decreases |b| - n
  {
    if n > 0 && Level(b, n) then Some(n) else if n == |b| then None else EndFrom(b, n + 1)
  }

  function ObjectEnd(b: string): (r: Option<nat>)
    ensures r.Some? ==> r.value <= |b|
  {
    EndFrom(b, 0)
  }

  lemma {:induction false} EndIsFirst(b: string, n: nat, m: nat)
    requires n <= |b| && forall j :: 0 < j < n ==> !Level(b, j)
    ensures EndFrom(b, n) == Some(m) <==> n <= m && IsObject(b, m)
    decreases |b| - n
  {
    if !(n > 0 && Level(b, n)) && n < |b| { EndIsFirst(b, n + 1, m); }
  }

  lemma EndSkips(b: string, n: nat, m: nat)
    requires n <= m <= |b| && (forall j :: n <= j < m && 0 < j ==> !Level(b, j))
    ensures EndFrom(b, n) == EndFrom(b, m)
    decreases m - n
  {
    if n < m { EndSkips(b, n + 1, m); }
  }

  /** Over the bytes with the brace count and a flag; a backslash in a string passes over the byte after it. */
  method Balanced(b: string) returns (r: Option<nat>)
    requires b != "" && b[0] == '{'
    ensures r == ObjectEnd(b)
  {
    var i, depth, inStr := 0, 0, false;
    while i < |b|
      invariant i <= |b| + 1 && (i <= |b| ==> LexAt(b, i) == Lex(depth, if inStr then Inside else Outside))
      invariant if i <= |b| then ObjectEnd(b) == EndFrom(b, i) else ObjectEnd(b).None?
      invariant i == 0 || depth > 0
      decreases |b| + 1 - i
    {
      var c := b[i];
      i, depth, inStr := Advance(b, i, depth, inStr);
      if i <= |b| && depth == 0 && c == '}' && !inStr { return Some(i); }
    }
    return None;
  }

  method Advance(b: string, i: nat, depth: int, inStr: bool) returns (j: nat, d: int, s: bool)
    requires i < |b| && (i == 0 ==> depth == 0 && !inStr && b[0] == '{') && (i > 0 ==> depth > 0)
    requires LexAt(b, i) == Lex(depth, if inStr then Inside else Outside)
    ensures i < j <= |b| + 1 && (j <= |b| ==> LexAt(b, j) == Lex(d, if s then Inside else Outside))
    ensures if j <= |b| then EndFrom(b, i) == EndFrom(b, j) else EndFrom(b, i).None?
    ensures d > 0 || (d == 0 && j <= |b| && b[i] == '}' && !s && Level(b, j))
  {
    j, d, s := i + 1, depth, inStr;
    var c := b[i];
    if inStr {
      if c == '\\' { j := j + 1; } else if c == '"' { s := false; }
    } else if c == '"' {
      s := true;
    } else if c == '{' {
      d := d + 1;
    } else if c == '}' {
      d := d - 1;
    }
  }

  // ------------------------------------------------------------------ the search for the object

  predicate BlankOrColon(c: char) { Blank(c) || c == ':' }

  /** What stands after the usage key at p, blanks and colons aside. */
  function AfterUsage(b: string, p: nat): string {
    if p + |USAGE| <= |b| then Skip(b[p + |USAGE|..], BlankOrColon) else ""
  }

  /** A usage key stands at p and an object follows it. */
  predicate UsageAt(b: string, p: int) {
    IsAt(b, USAGE, p) && var rest := AfterUsage(b, p); rest != "" && rest[0] == '{'
  }

  /** The places of the keys that the search comes to, from pos on; each search resumes after the last key. */
  function Found(b: string, key: string, pos: nat): seq<nat>
    requires pos <= |b| && key != ""
    decreases |b| - pos
  {
    var s := Index(b, key, pos);
    if s.None? then [] else [s.value] + Found(b, key, s.value + |key|)
  }

  /** The places for which f holds, in their order. */
  function Chosen(ps: seq<nat>, f: nat -> bool): seq<nat> {
    if ps == [] then [] else (if f(ps[0]) then [ps[0]] else []) + Chosen(ps[1..], f)
  }

  function Opens(b: string): nat -> bool { p => UsageAt(b, p) }

  /** The usage objects that the search comes to. */
  function Objects(b: string): seq<nat> { Chosen(Found(b, USAGE, 0), Opens(b)) }

  /** The two counts of the one usage object. */
  function ParseUsage(b: string): Option<(nat, nat)> {
    var os := Objects(b);
    if |os| != 1 then None else CountsIn(AfterUsage(b, os[0]))
  }

  /** The two counts of the object that the text begins with. */
  function CountsIn(b: string): Option<(nat, nat)> {
    var n := ObjectEnd(b);
    if n.None? then None else Both(CountOf(b[..n.value], PROMPT), CountOf(b[..n.value], COMPLETION))
  }

  function Both(a: Option<nat>, b: Option<nat>): Option<(nat, nat)> {
    if a.Some? && b.Some? then Some((a.value, b.value)) else None
  }

  method ReadCounts(b: string) returns (r: Option<(nat, nat)>)
    requires b != "" && b[0] == '{'
    ensures r == CountsIn(b)
  {
    var n := Balanced(b);
    if n.None? { return None; }
    var prompt := UniqueCount(b[..n.value], PROMPT);
    var completion := UniqueCount(b[..n.value], COMPLETION);
    return Both(prompt, completion);
  }

  lemma {:induction false} ChosenIn(ps: seq<nat>, f: nat -> bool, p: nat)
    ensures p in Chosen(ps, f) <==> p in ps && f(p)
  {
    if ps != [] {
      ChosenIn(ps[1..], f, p);
      assert ps == [ps[0]] + ps[1..];
    }
  }

  lemma {:induction false} ChosenIncrease(ps: seq<nat>, f: nat -> bool)
    requires Increasing(ps)
    ensures Increasing(Chosen(ps, f))
  {
    if ps != [] {
      ChosenIncrease(ps[1..], f);
      forall p | p in Chosen(ps[1..], f) ensures ps[0] < p { ChosenIn(ps[1..], f, p); }
      IncreasingFrom(ps[0], Chosen(ps[1..], f));
    }
  }

  lemma FoundStep(b: string, key: string, off: nat, s: nat)
    requires key != "" && off <= |b| && Index(b, key, off) == Some(s)
    ensures Found(b, key, off) == [s] + Found(b, key, s + |key|)
  {
  }

  lemma ChosenStep(b: string, key: string, f: nat -> bool, off: nat, s: nat)
    requires key != "" && off <= |b| && Index(b, key, off) == Some(s)
    ensures var later := Chosen(Found(b, key, s + |key|), f); Chosen(Found(b, key, off), f) == if f(s) then [s] + later
        else later
  {
    FoundStep(b, key, off, s);
    assert Found(b, key, off)[1..] == Found(b, key, s + |key|);
  }

  /** Of all places one, if any, has been seen and these are to come. */
  predicate SoFar(all: seq<nat>, at: Option<nat>, rest: seq<nat>) {
    all == if at.None? then rest else [at.value] + rest
  }

  lemma SeeOne(all: seq<nat>, at: Option<nat>, rest: seq<nat>, s: nat, later: seq<nat>)
    requires SoFar(all, at, rest) && rest == [s] + later
    ensures if at.Some? then |all| > 1 else SoFar(all, Some(s), later)
  {
  }

  /** The loop of the search: the first place chosen, and whether there is another. */
  method Search(b: string, key: string, f: nat -> bool) returns (at: Option<nat>, more: bool)
    requires key != ""
    ensures more ==> |Chosen(Found(b, key, 0), f)| > 1
    ensures !more ==> SoFar(Chosen(Found(b, key, 0), f), at, [])
  {
    ghost var all := Chosen(Found(b, key, 0), f);
    var off := 0;
    at, more := None, false;
    while true
      invariant off <= |b| && !more && SoFar(all, at, Chosen(Found(b, key, off), f))
      decreases |b| - off
    {
      var s := Index(b, key, off);
      if s.None? { return; }
      ChosenStep(b, key, f, off, s.value);
      if f(s.value) {
        SeeOne(all, at, Chosen(Found(b, key, off), f), s.value, Chosen(Found(b, key, s.value + |key|), f));
        if at.Some? { return at, true; }
        at := s;
      }
      off := s.value + |key|;
    }
  }

  method ReadUsage(b: string) returns (r: Option<(nat, nat)>)
    ensures r == ParseUsage(b)
  {
    var at, more := Search(b, USAGE, Opens(b));
    if more || at.None? { return None; }
    ChosenIn(Found(b, USAGE, 0), Opens(b), at.value);
    var rest := SkipBlanks(b[at.value + |USAGE|..], BlankOrColon);
    r := ReadCounts(rest);
  }

  // ------------------------------------------------------------------ what is read

  /** The key stands once, with this count. */
  ghost predicate Once(obj: string, key: string, n: nat) { exists p: nat :: OnlyCount(obj, key, p, n) }

  /** The first n bytes are the object, and in it each key stands once with a plain number within the bound. */
  ghost predicate HasCounts(b: string, n: nat, prompt: nat, completion: nat) {
    IsObject(b, n) && n <= |b| && Once(b[..n], PROMPT, prompt) && Once(b[..n], COMPLETION, completion)
  }

  /** The search comes to exactly one usage object, at p, and its n bytes have these counts. */
  ghost predicate Reads(b: string, p: nat, n: nat, prompt: nat, completion: nat) {
    Objects(b) == [p] && UsageAt(b, p) && HasCounts(AfterUsage(b, p), n, prompt, completion)
  }

  lemma CountsAreRead(b: string, prompt: nat, completion: nat)
    ensures CountsIn(b) == Some((prompt, completion)) <==> exists n: nat :: HasCounts(b, n, prompt, completion)
  {
    var end := ObjectEnd(b);
    if n: nat :| HasCounts(b, n, prompt, completion) { EndIsFirst(b, 0, n); }
    if end.Some? {
      EndIsFirst(b, 0, end.value);
      BothAreOnce(b[..end.value], prompt, completion);
      assert HasCounts(b, end.value, prompt, completion) <==> CountsIn(b) == Some((prompt, completion));
    }
  }

  lemma BothAreOnce(obj: string, prompt: nat, completion: nat)
    ensures Both(CountOf(obj, PROMPT), CountOf(obj, COMPLETION)) == Some((prompt, completion))
       <==> Once(obj, PROMPT, prompt) && Once(obj, COMPLETION, completion)
  {
    KeysAreQuoted();
    CountIsOnly(obj, PROMPT, prompt);
    CountIsOnly(obj, COMPLETION, completion);
  }

  /** Counts are read from a text if and only if the search comes to one such object, and then they are its counts. */
  lemma UsageIsRead(b: string, prompt: nat, completion: nat)
    ensures ParseUsage(b) == Some((prompt, completion)) <==> exists p: nat, n: nat :: Reads(b, p, n, prompt, completion)
  {
    var os := Objects(b);
    if |os| == 1 {
      ChosenIn(Found(b, USAGE, 0), Opens(b), os[0]);
      CountsAreRead(AfterUsage(b, os[0]), prompt, completion);
      if n: nat :| HasCounts(AfterUsage(b, os[0]), n, prompt, completion) {
        assert Reads(b, os[0], n, prompt, completion);
      }
    }
  }

  // ------------------------------------------------------------------ what the search comes to

  /** For no key that the search comes to does f hold on its closing quote. */
  ghost predicate Unhidden(b: string, key: string, pos: nat, f: nat -> bool)
    requires pos <= |b| && key != ""
  {
    forall k :: k in Found(b, key, pos) ==> !f(k + |key| - 1)
  }

  lemma {:induction false} FoundLater(b: string, key: string, pos: nat)
    requires pos <= |b| && key != ""
    ensures (forall k :: k in Found(b, key, pos) ==> pos <= k) && Increasing(Found(b, key, pos))
    decreases |b| - pos
  {
    var s := Index(b, key, pos);
    if s.Some? {
      FoundLater(b, key, s.value + |key|);
      FoundStep(b, key, pos, s.value);
      IncreasingFrom(s.value, Found(b, key, s.value + |key|));
    }
  }

  lemma IncreasingFrom(s: nat, rest: seq<nat>)
    requires Increasing(rest) && forall r :: r in rest ==> s < r
    ensures Increasing([s] + rest)
  {
    forall i | 0 <= i < |rest| ensures s < rest[i] { assert rest[i] in rest; }
  }

  lemma {:induction false} AllAreFound(b: string, key: string, pos: nat, f: nat -> bool, p: nat)
    requires Quoted(key) && pos <= p && pos <= |b| && IsAt(b, key, p) && f(p) && Unhidden(b, key, pos, f)
    ensures p in Found(b, key, pos)
    decreases |b| - pos
  {
    var s := FirstBefore(b, key, pos, p);
    FoundStep(b, key, pos, s);
    if s < p {
      NotOnTheQuote(b, key, pos, f, p, s);
      UnhiddenLater(b, key, pos, f, s);
      AllAreFound(b, key, s + |key|, f, p);
    }
  }

  lemma FirstBefore(b: string, key: string, pos: nat, p: nat) returns (s: nat)
    requires pos <= |b| && pos <= p && IsAt(b, key, p)
    ensures Index(b, key, pos) == Some(s) && s <= p
  {
    IndexIsFirst(b, key, pos);
    s := Index(b, key, pos).value;
  }

  lemma NotOnTheQuote(b: string, key: string, pos: nat, f: nat -> bool, p: nat, s: nat)
    requires Quoted(key) && pos <= |b| && Index(b, key, pos) == Some(s) && s < p && IsAt(b, key, p) && f(p)
        && Unhidden(b, key, pos, f)
    ensures s + |key| <= p
  {
    FoundStep(b, key, pos, s);
    IndexIsFirst(b, key, pos);
    assert s in Found(b, key, pos);
    if p < s + |key| { QuotedOverlap(b, key, s, p); }
  }

  lemma UnhiddenLater(b: string, key: string, pos: nat, f: nat -> bool, s: nat)
    requires key != "" && pos <= |b| && Index(b, key, pos) == Some(s) && Unhidden(b, key, pos, f)
    ensures Unhidden(b, key, s + |key|, f)
  {
    FoundStep(b, key, pos, s);
    var rest, all := Found(b, key, s + |key|), Found(b, key, pos);
    forall k | k in rest ensures !f(k + |key| - 1) { assert k in all; }
  }

  /** Two keys that the search comes to do not overlap. */
  lemma {:induction false} FoundApart(b: string, key: string, pos: nat, k: nat, l: nat)
    requires pos <= |b| && key != "" && k in Found(b, key, pos) && l in Found(b, key, pos) && k < l
    ensures k + |key| <= l
    decreases |b| - pos
  {
    var s := Index(b, key, pos).value;
    FoundLater(b, key, s + |key|);
    if k != s { FoundApart(b, key, s + |key|, k, l); }
  }

  /** The search comes to every usage object if and only if none hides behind the closing quote of a key it came to. */
  lemma SearchIsComplete(b: string)
    ensures (forall p: nat :: UsageAt(b, p) ==> p in Objects(b)) <==> Unhidden(b, USAGE, 0, Opens(b))
  {
    var f := Opens(b);
    KeysAreQuoted();
    if Unhidden(b, USAGE, 0, f) {
      forall p: nat | UsageAt(b, p) ensures p in Objects(b) {
        AllAreFound(b, USAGE, 0, f, p);
        ChosenIn(Found(b, USAGE, 0), f, p);
      }
    } else {
      var k :| k in Found(b, USAGE, 0) && f(k + |USAGE| - 1);
      HiddenIsMissed(b, k);
    }
  }

  lemma HiddenIsMissed(b: string, k: nat)
    requires k in Found(b, USAGE, 0) && UsageAt(b, k + |USAGE| - 1)
    ensures k + |USAGE| - 1 !in Objects(b)
  {
    var p := k + |USAGE| - 1;
    ChosenIn(Found(b, USAGE, 0), Opens(b), p);
    if p in Found(b, USAGE, 0) { FoundApart(b, USAGE, 0, k, p); }
  }

  /** So on such texts one usage object means exactly one in the whole text. */
  lemma OneMeansOne(b: string, p: nat)
    requires Unhidden(b, USAGE, 0, Opens(b))
    ensures Objects(b) == [p] <==> UsageAt(b, p) && forall q: nat :: UsageAt(b, q) ==> q == p
  {
    SearchIsComplete(b);
    FoundLater(b, USAGE, 0);
    ChosenIncrease(Found(b, USAGE, 0), Opens(b));
    forall q: nat ensures q in Objects(b) <==> UsageAt(b, q) { ChosenIn(Found(b, USAGE, 0), Opens(b), q); }
    OneOnly(Objects(b), p);
  }

  lemma OneOnly(os: seq<nat>, p: nat)
    requires Increasing(os)
    ensures os == [p] <==> p in os && forall q :: q in os ==> q == p
  {
    if p in os && forall q :: q in os ==> q == p {
      assert os[0] in os;
      if |os| > 1 { TwoDiffer(os); }
    }
  }

  lemma TwoDiffer(os: seq<nat>)
    requires Increasing(os) && |os| > 1
    ensures os[0] in os && os[1] in os && os[0] != os[1]
  {
  }

  /** A text with one usage object that the search does not come to. */
  const HIDDEN := "\"usage\"usage\":{}"

  lemma HiddenUsage()
    ensures UsageAt(HIDDEN, 6) && 6 !in Objects(HIDDEN)
  {
    HiddenKeys();
    FoundStep(HIDDEN, USAGE, 0, 0);
    HiddenIsMissed(HIDDEN, 0);
  }

  lemma HiddenKeys()
    ensures Index(HIDDEN, USAGE, 0) == Some(0) && UsageAt(HIDDEN, 6)
  {
    assert HIDDEN[0..7] == USAGE && HIDDEN[6..13] == USAGE;
    assert HIDDEN[13..] == ":{}" && Skip(":{}", BlankOrColon) == "{}" by { assert ":{}"[1..] == "{}"; }
  }

  // ------------------------------------------------------------------ the answer of a response

  /** However a body arrives the answer is the body's own, if and only if usage is read from its last bytes, or chunks
      are not asked for, or no counted key overlaps another. */
  lemma AnswerIsOfBody(body: string, stream: bool)
    ensures (forall pieces :: Scanner.Body(pieces) == body ==>
               Scanner.Result(Scanner.FeedAll(pieces), ParseUsage, stream)
                   == Scanner.ResultOf(body, ParseUsage, stream))
       <==> ParseUsage(Scanner.Last(body, Scanner.TOKEN_WINDOW)).Some? || !stream || Scanner.Clear(body)
  {
    Scanner.ResultIsOfBody(body, ParseUsage, stream);
  }
}
