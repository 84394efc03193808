/** The streaming token scanner (internal/gateway/tokens.go): counting content keys across arbitrary read boundaries.
    Bytes are characters. */
module Scanner {
  import opened Prelude

  const TOKEN_WINDOW := 2048
  const KEY := "\"content\":\""
  const KEY_LEN := 11

  /** The key stands at p. */
  predicate Occurs(b: string, p: int) { 0 <= p <= |b| - KEY_LEN && b[p..p + KEY_LEN] == KEY }

  /** The key stands at p and a byte that is not a closing quote follows it. */
  predicate Carries(b: string, p: int) { Occurs(b, p) && p + KEY_LEN < |b| && b[p + KEY_LEN] != '"' }

  /** How many of the positions lo .. hi - 1 carry content. */
  function Count(b: string, lo: int, hi: int): nat
    decreases hi - lo
  {
    if lo >= hi then 0 else Count(b, lo, hi - 1) + if Carries(b, hi - 1) then 1 else 0
  }

  /** The plain count on a whole body. */
  function Chunks(body: string): nat { Count(body, 0, |body|) }

  /** No key that carries content starts on the closing quote of another key. */
  ghost predicate Clear(b: string) { forall p :: Occurs(b, p) ==> !Carries(b, p + KEY_LEN - 1) }

  // ------------------------------------------------------------------ how keys can overlap

  lemma OccursAt(b: string, p: int, i: nat)
    requires Occurs(b, p) && i < KEY_LEN
    ensures b[p + i] == KEY[i]
  {
    assert b[p..p + KEY_LEN][i] == KEY[i];
  }

  /** Two keys overlap in one byte at most: the quote that closes one and opens the other. */
  lemma OverlapInOneByte(b: string, p: int, q: int)
    requires Occurs(b, p) && Occurs(b, q) && p < q < p + KEY_LEN
    ensures q == p + KEY_LEN - 1
  {
    OccursAt(b, p, q - p);
    OccursAt(b, q, 0);
    if q - p == 8 {
      OccursAt(b, p, 9);
      OccursAt(b, q, 1);
    }
  }

  /** A key that another one starts in carries content itself. */
  lemma OverlappedCarries(b: string, p: int)
    requires Occurs(b, p) && Occurs(b, p + KEY_LEN - 1)
    ensures Carries(b, p)
  {
    OccursAt(b, p + KEY_LEN - 1, 1);
  }

  // ------------------------------------------------------------------ the search

  /** The first key at or after pos. */
  function Next(b: string, pos: nat): (r: Option<nat>)
    requires pos <= |b|
    ensures r.Some? ==> pos <= r.value && Occurs(b, r.value) && forall p :: pos <= p < r.value ==> !Occurs(b, p)
    ensures r.None? ==> forall p :: pos <= p ==> !Occurs(b, p)
    decreases |b| - pos
  {
    if Occurs(b, pos) then Some(pos) else if pos == |b| then None else Next(b, pos + 1)
  }

  /** What the search counts from pos on: keys that start before the limit, each search resuming after the last key. */
  function Greedy(b: string, pos: nat, limit: nat): nat
    requires pos <= |b|
    decreases |b| - pos
  {
    var s := Next(b, pos);
    if s.None? || s.value >= limit then 0
        else (if Carries(b, s.value) then 1 else 0) + Greedy(b, s.value + KEY_LEN, limit)
  }

  method CountKeys(b: string, limit: nat) returns (n: nat)
    ensures n == Greedy(b, 0, limit)
  {
    n := 0;
    var pos := 0;
    while true
      invariant pos <= |b| && n + Greedy(b, pos, limit) == Greedy(b, 0, limit)
      decreases |b| - pos
    {
      var s := Next(b, pos);
      if s.None? || s.value >= limit { return; }
      var after := s.value + KEY_LEN;
      if after < |b| && b[after] != '"' { n := n + 1; }
      pos := after;
    }
  }

  lemma {:induction false} CountSplit(b: string, lo: int, mid: int, hi: int)
    requires lo <= mid <= hi
    ensures Count(b, lo, hi) == Count(b, lo, mid) + Count(b, mid, hi)
    decreases hi - lo
  {
    if mid < hi { CountSplit(b, lo, mid, hi - 1); }
  }

  lemma {:induction false} CountNothing(b: string, lo: int, hi: int)
    requires forall p :: lo <= p < hi ==> !Carries(b, p)
    ensures Count(b, lo, hi) == 0
    decreases hi - lo
  {
    if lo < hi { CountNothing(b, lo, hi - 1); }
  }

  lemma CountOne(b: string, p: int)
    ensures Count(b, p, p + 1) == if Carries(b, p) then 1 else 0
  {
    assert Count(b, p, p) == 0;
  }

  /** What one round of the search passes over: the key it found, and perhaps one on that key's closing quote. */
  lemma RoundCount(b: string, pos: nat, s: nat, hi: int)
    requires pos <= |b| && Next(b, pos) == Some(s) && s < hi
    ensures Count(b, pos, hi)
         == (if Carries(b, s) then 1 else 0) + (if s + KEY_LEN - 1 < hi && Carries(b, s + KEY_LEN - 1) then 1 else 0)
            + Count(b, s + KEY_LEN, hi)
  {
    CountSplit(b, pos, s, hi);
    CountNothing(b, pos, s);
    CountSplit(b, s, s + 1, hi);
    CountOne(b, s);
    var last := s + KEY_LEN - 1;
    forall p | s + 1 <= p < last ensures !Carries(b, p) { if Occurs(b, p) { OverlapInOneByte(b, s, p); } }
    if hi <= last {
      CountNothing(b, s + 1, hi);
    } else {
      CountSplit(b, s + 1, last, hi);
      CountNothing(b, s + 1, last);
      CountSplit(b, last, last + 1, hi);
      CountOne(b, last);
    }
  }

  /** On a clear text the search counts every key that carries content before the limit. */
  lemma {:induction false} GreedyIsCount(b: string, pos: nat, limit: nat)
    requires Clear(b) && pos <= |b|
    ensures Greedy(b, pos, limit) == Count(b, pos, limit)
    decreases |b| - pos
  {
    var s := Next(b, pos);
    if s.None? || s.value >= limit {
      CountNothing(b, pos, limit);
    } else {
      RoundCount(b, pos, s.value, limit);
      GreedyIsCount(b, s.value + KEY_LEN, limit);
    }
  }

  lemma {:induction false} GreedyAtMost(b: string, pos: nat, limit: nat)
    requires pos <= |b|
    ensures Greedy(b, pos, limit) <= Count(b, pos, limit)
    decreases |b| - pos
  {
    var s := Next(b, pos);
    if s.Some? && s.value < limit {
      RoundCount(b, pos, s.value, limit);
      GreedyAtMost(b, s.value + KEY_LEN, limit);
    }
  }

  /** On any other text it misses at least one: of two overlapping keys it visits one only. */
  lemma {:induction false} GreedyMisses(b: string, pos: nat, p: nat)
    requires pos <= p && Occurs(b, p) && Carries(b, p + KEY_LEN - 1)
    ensures pos <= |b| && Greedy(b, pos, |b|) < Count(b, pos, |b|)
    decreases |b| - pos
  {
    var s := Next(b, pos).value;
    RoundCount(b, pos, s, |b|);
    if p >= s + KEY_LEN {
      GreedyMisses(b, s + KEY_LEN, p);
    } else {
      OverlappedCarries(b, p);
      if p != s { OverlapInOneByte(b, s, p); }
      GreedyAtMost(b, s + KEY_LEN, |b|);
    }
  }

  // ------------------------------------------------------------------ feeding

  function Last(s: string, n: nat): string { s[Max(0, |s| - n)..] }

  /** The scanner's memory: the last bytes for the usage object, the last key length of bytes, and the count. */
  datatype Memory = Memory(tail: string, carry: string, chunks: nat)

  const Start: Memory := Memory("", "", 0)

  /** The bytes in which a key that began in the carry can be completed: a buffer of two key lengths. */
  function Head(carry: string, b: string): string {
    var all := carry + b[..Min(|b|, KEY_LEN + 1)];
    all[..Min(|all|, 2 * KEY_LEN)]
  }

  function Feed(m: Memory, b: string): Memory {
    if b == "" then m
    else
      Memory(
        if |b| >= TOKEN_WINDOW then Last(b, TOKEN_WINDOW) else Last(m.tail, Max(0, TOKEN_WINDOW - |b|)) + b,
        if |b| >= KEY_LEN then Last(b, KEY_LEN) else Last(m.carry + b, KEY_LEN),
        m.chunks + (if m.carry == "" then 0 else Greedy(Head(m.carry, b), 0, |m.carry|)) + Greedy(b, 0, |b|))
  }

  function FeedAll(pieces: seq<string>): Memory {
    if pieces == [] then Start else Feed(FeedAll(pieces[..|pieces| - 1]), pieces[|pieces| - 1])
  }

  function Body(pieces: seq<string>): string {
    if pieces == [] then "" else Body(pieces[..|pieces| - 1]) + pieces[|pieces| - 1]
  }

  // ------------------------------------------------------------------ the memory depends on the body only

  lemma LastOfSum(a: string, b: string, n: nat)
    ensures Last(a + b, n) == if |b| >= n then Last(b, n) else Last(a, n - |b|) + b
  {
  }

  lemma LastOfLast(a: string, n: nat, k: nat)
    requires k <= n
    ensures Last(Last(a, n), k) == Last(a, k)
  {
  }

  lemma FeedTail(m: Memory, body: string, b: string)
    requires m.tail == Last(body, TOKEN_WINDOW)
    ensures Feed(m, b).tail == Last(body + b, TOKEN_WINDOW)
  {
    LastOfSum(body, b, TOKEN_WINDOW);
    if b == "" {
      assert body + b == body;
    } else if |b| < TOKEN_WINDOW {
      LastOfLast(body, TOKEN_WINDOW, TOKEN_WINDOW - |b|);
    }
  }

  lemma FeedCarry(m: Memory, body: string, b: string)
    requires m.carry == Last(body, KEY_LEN)
    ensures Feed(m, b).carry == Last(body + b, KEY_LEN)
  {
    LastOfSum(body, b, KEY_LEN);
    LastOfSum(m.carry, b, KEY_LEN);
    if b == "" { assert body + b == body; } else if |b| < KEY_LEN { LastOfLast(body, KEY_LEN, KEY_LEN - |b|); }
  }

  /** A stretch of a text. */
  predicate Stretch(t: string, body: string, from: nat) { from + |t| <= |body| && body[from..from + |t|] == t }

  lemma StretchOccurs(t: string, body: string, from: nat, p: int)
    requires Stretch(t, body, from) && 0 <= p <= |t| - KEY_LEN
    ensures Occurs(t, p) <==> Occurs(body, from + p)
  {
    var x, y := t[p..p + KEY_LEN], body[from + p..from + p + KEY_LEN];
    assert |x| == |y|;
    forall i | 0 <= i < KEY_LEN ensures x[i] == y[i] { assert body[from..from + |t|][p + i] == t[p + i]; }
    assert x == y;
  }

  lemma StretchCarries(t: string, body: string, from: nat, p: int)
    requires Stretch(t, body, from) && 0 <= p && p + KEY_LEN < |t|
    ensures Carries(t, p) <==> Carries(body, from + p)
  {
    StretchOccurs(t, body, from, p);
    assert body[from..from + |t|][p + KEY_LEN] == t[p + KEY_LEN];
  }

  lemma StretchClear(t: string, body: string, from: nat)
    requires Stretch(t, body, from) && Clear(body)
    ensures Clear(t)
  {
    forall p | Occurs(t, p) ensures !Carries(t, p + KEY_LEN - 1) {
      StretchOccurs(t, body, from, p);
      if Carries(t, p + KEY_LEN - 1) { StretchCarries(t, body, from, p + KEY_LEN - 1); }
    }
  }

  /** Counting in a stretch is counting in the text, as long as the stretch shows the byte after each key. */
  lemma {:induction false} StretchCount(t: string, body: string, from: nat, hi: nat)
    requires Stretch(t, body, from)
    requires from + |t| == |body| || hi + KEY_LEN <= |t|
    ensures Count(t, 0, hi) == Count(body, from, from + hi)
  {
    if hi > 0 {
      StretchCount(t, body, from, hi - 1);
      if hi - 1 + KEY_LEN < |t| { StretchCarries(t, body, from, hi - 1); }
    }
  }

  /** A key that starts before the last key length of bytes had its following byte already. */
  lemma {:induction false} CountOld(a: string, body: string, hi: int)
    requires a <= body && (hi > 0 ==> hi + KEY_LEN <= |a|)
    ensures Count(a, 0, hi) == Count(body, 0, hi)
  {
    if hi > 0 {
      CountOld(a, body, hi - 1);
      StretchCarries(a, body, 0, hi - 1);
    }
  }

  lemma CountFits(a: string)
    ensures Count(a, 0, |a|) == Count(a, 0, Max(0, |a| - KEY_LEN))
  {
    CountSplit(a, 0, Max(0, |a| - KEY_LEN), |a|);
    CountNothing(a, Max(0, |a| - KEY_LEN), |a|);
  }

  lemma OldAndNew(a: string, b: string)
    ensures Chunks(a + b) == Chunks(a) + Count(a + b, Max(0, |a| - KEY_LEN), |a|) + Count(a + b, |a|, |a + b|)
  {
    var body, settled := a + b, Max(0, |a| - KEY_LEN);
    CountSplit(body, 0, settled, |body|);
    CountSplit(body, settled, |a|, |body|);
    CountOld(a, body, settled);
    CountFits(a);
  }

  lemma InsideCount(a: string, b: string)
    requires Clear(a + b)
    ensures Greedy(b, 0, |b|) == Count(a + b, |a|, |a + b|)
  {
    assert Stretch(b, a + b, |a|);
    StretchGreedy(b, a + b, |a|, |b|);
  }

  lemma PrefixStretch(x: string, y: string, t: string)
    requires t <= y
    ensures Stretch(t, x + y, |x|)
  {
  }

  lemma HeadIsPrefix(carry: string, b: string)
    ensures Head(carry, b) <= carry + b && |Head(carry, b)| == Min(|carry| + Min(|b|, KEY_LEN + 1), 2 * KEY_LEN)
  {
    var m := Min(|b|, KEY_LEN + 1);
    assert carry + b[..m] <= carry + b;
  }

  /** Searching a stretch for the keys that start in its first n bytes. */
  lemma StretchGreedy(t: string, body: string, from: nat, n: nat)
    requires Stretch(t, body, from) && Clear(body) && (from + |t| == |body| || n + KEY_LEN <= |t|)
    ensures Greedy(t, 0, n) == Count(body, from, from + n)
  {
    StretchClear(t, body, from);
    GreedyIsCount(t, 0, n);
    StretchCount(t, body, from, n);
  }

  /** The head buffer is long enough to show the byte after every key that starts in the carry. */
  lemma HeadShows(x: string, carry: string, b: string)
    requires |carry| <= KEY_LEN && Clear(x + (carry + b))
    ensures Greedy(Head(carry, b), 0, |carry|) == Count(x + (carry + b), |x|, |x| + |carry|)
  {
    var head := Head(carry, b);
    HeadIsPrefix(carry, b);
    PrefixStretch(x, carry + b, head);
    StretchGreedy(head, x + (carry + b), |x|, |carry|);
  }

  lemma CarryCount(a: string, b: string, carry: string)
    requires carry == Last(a, KEY_LEN) && Clear(a + b)
    ensures Greedy(Head(carry, b), 0, |carry|) == Count(a + b, Max(0, |a| - KEY_LEN), |a|)
  {
    var x := a[..Max(0, |a| - KEY_LEN)];
    assert a + b == x + (carry + b);
    HeadShows(x, carry, b);
  }

  /** What one piece adds: the keys completed from the carry and those that lie inside it. */
  lemma PieceCount(a: string, b: string, carry: string)
    requires carry == Last(a, KEY_LEN) && Clear(a + b)
    ensures Chunks(a + b) == Chunks(a) + (if carry == "" then 0 else Greedy(Head(carry, b), 0, |carry|))
        + Greedy(b, 0, |b|)
  {
    OldAndNew(a, b);
    InsideCount(a, b);
    CarryCount(a, b, carry);
  }

  // ------------------------------------------------------------------ every split

  lemma PrefixClear(a: string, b: string)
    requires Clear(a + b)
    ensures Clear(a)
  {
    assert Stretch(a, a + b, 0);
    StretchClear(a, a + b, 0);
  }

  /** Whatever the pieces, the memory holds the body's last bytes. */
  lemma {:induction false} MemoryIsOfBody(pieces: seq<string>)
    ensures FeedAll(pieces).tail == Last(Body(pieces), TOKEN_WINDOW)
        && FeedAll(pieces).carry == Last(Body(pieces), KEY_LEN)
  {
    if pieces != [] {
      var init := pieces[..|pieces| - 1];
      MemoryIsOfBody(init);
      FeedTail(FeedAll(init), Body(init), pieces[|pieces| - 1]);
      FeedCarry(FeedAll(init), Body(init), pieces[|pieces| - 1]);
    }
  }

  lemma {:induction false} CountIsOfBody(pieces: seq<string>)
    requires Clear(Body(pieces))
    ensures FeedAll(pieces).chunks == Chunks(Body(pieces))
  {
    if pieces != [] {
      var init, b := pieces[..|pieces| - 1], pieces[|pieces| - 1];
      PrefixClear(Body(init), b);
      CountIsOfBody(init);
      MemoryIsOfBody(init);
      if b == "" { assert Body(pieces) == Body(init); } else { PieceCount(Body(init), b, FeedAll(init).carry); }
    }
  }

  /** The exact condition: every split of a body counts its content keys correctly if and only if the body is clear. */
  lemma CountIsSplitIndependent(body: string)
    ensures (forall pieces :: Body(pieces) == body ==> FeedAll(pieces).chunks == Chunks(body)) <==> Clear(body)
  {
    if Clear(body) {
      forall pieces | Body(pieces) == body ensures FeedAll(pieces).chunks == Chunks(body) { CountIsOfBody(pieces); }
    } else {
      var p :| Occurs(body, p) && Carries(body, p + KEY_LEN - 1);
      GreedyMisses(body, 0, p);
      OnePiece(body);
    }
  }

  lemma FirstPiece(b: string)
    requires b != ""
    ensures Feed(Start, b).chunks == Greedy(b, 0, |b|)
  {
  }

  lemma OnePiece(body: string)
    requires body != ""
    ensures Body([body]) == body && FeedAll([body]).chunks == Greedy(body, 0, |body|)
  {
    var one := [body];
    assert one[..0] == [];
    assert FeedAll(one) == Feed(Start, body);
    FirstPiece(body);
    assert Body(one) == "" + body;
  }

  /** The answer of a finished response, for any reading of the usage object from the last bytes. */
  datatype Source = FromUsage(input: nat, output: nat) | FromChunks(output: nat) | Unknown

  function Result(m: Memory, usage: string -> Option<(nat, nat)>, stream: bool): Source {
    var u := usage(m.tail);
    if u.Some? then FromUsage(u.value.0, u.value.1) else if stream && m.chunks > 0 then FromChunks(m.chunks)
        else Unknown
  }

  /** The answer that the body itself calls for. */
  function ResultOf(body: string, usage: string -> Option<(nat, nat)>, stream: bool): Source {
    Result(Memory(Last(body, TOKEN_WINDOW), Last(body, KEY_LEN), Chunks(body)), usage, stream)
  }

  /** However a body arrives the answer is the body's own, if and only if the last bytes hold a usage object, or
      chunks are not asked for, or no counted key overlaps another. */
  lemma ResultIsOfBody(body: string, usage: string -> Option<(nat, nat)>, stream: bool)
    ensures (forall pieces :: Body(pieces) == body
                              ==> Result(FeedAll(pieces), usage, stream) == ResultOf(body, usage, stream))
       <==> usage(Last(body, TOKEN_WINDOW)).Some? || !stream || Clear(body)
  {
    if usage(Last(body, TOKEN_WINDOW)).Some? || !stream || Clear(body) {
      forall pieces | Body(pieces) == body ensures Result(FeedAll(pieces), usage, stream)
          == ResultOf(body, usage, stream) {
        MemoryIsOfBody(pieces);
        if Clear(body) { CountIsOfBody(pieces); }
      }
    } else {
      var p :| Occurs(body, p) && Carries(body, p + KEY_LEN - 1);
      GreedyMisses(body, 0, p);
      OnePiece(body);
      MemoryIsOfBody([body]);
      assert Result(FeedAll([body]), usage, stream) != ResultOf(body, usage, stream);
    }
  }

  lemma NotAt(b: string, p: int)
    requires 0 <= p <= |b| - KEY_LEN && (b[p] != '"' || b[p + 1] != 'c')
    ensures !Occurs(b, p)
  {
    if Occurs(b, p) {
      OccursAt(b, p, 0);
      OccursAt(b, p, 1);
    }
  }

  lemma OneKey(b: string, p: nat, limit: nat)
    requires Carries(b, p) && p < limit && forall q :: 0 <= q && (q < p || q >= p + KEY_LEN) ==> !Occurs(b, q)
    ensures Greedy(b, 0, limit) == 1
  {
    assert Next(b, 0) == Some(p);
    assert Next(b, p + KEY_LEN).None?;
  }

  const FIRST_READ := "\"content\":\"c"
  const SECOND_READ := "ontent\":\"x"

  lemma SplitHead()
    ensures var carry := Last(FIRST_READ, KEY_LEN); Greedy(Head(carry, SECOND_READ), 0, |carry|) == 1
                                                    && Greedy(SECOND_READ, 0, |SECOND_READ|) == 0
  {
    var carry, two, head := "content\":\"c", SECOND_READ, "content\":\"content\":\"x";
    assert Last(FIRST_READ, KEY_LEN) == carry;
    assert two[..Min(|two|, KEY_LEN + 1)] == two;
    assert (carry + two)[..21] == carry + two == head;
    forall q | 0 <= q < 9 ensures !Occurs(head, q) { NotAt(head, q); }
    assert head[9..20] == KEY;
    OneKey(head, 9, 11);
    assert Next(two, 0).None?;
  }

  lemma OneRead()
    ensures Greedy(FIRST_READ + SECOND_READ, 0, |FIRST_READ + SECOND_READ|) == 1 && Greedy(FIRST_READ, 0, |FIRST_READ|)
        == 1
  {
    var body, one := FIRST_READ + SECOND_READ, FIRST_READ;
    assert one[..11] == KEY && body[..11] == KEY;
    OneKey(one, 0, |one|);
    NotAt(body, 11);
    OneKey(body, 0, |body|);
  }

  /** It does depend on the reads where keys overlap: in one piece these bytes count one key, in two pieces they count
      two. */
  lemma OverlapDependsOnReads()
    ensures FeedAll([FIRST_READ + SECOND_READ]).chunks == 1 && FeedAll([FIRST_READ, SECOND_READ]).chunks == 2
    ensures Body([FIRST_READ, SECOND_READ]) == FIRST_READ + SECOND_READ
  {
    OneRead();
    SplitHead();
    OnePiece(FIRST_READ + SECOND_READ);
    TwoPieces(FIRST_READ, SECOND_READ);
  }

  lemma TwoPieces(one: string, two: string)
    requires one != "" && two != ""
    ensures Body([one, two]) == one + two
    ensures var carry := Last(one, KEY_LEN);
            FeedAll([one, two]).chunks == Greedy(one, 0, |one|) + Greedy(Head(carry, two), 0, |carry|)
                + Greedy(two, 0, |two|)
  {
    OnePiece(one);
    assert [one, two][..1] == [one];
    MemoryIsOfBody([one]);
  }

  // ------------------------------------------------------------------ the implementation

  /** Copy as much as fits, and say how much. */
  method CopyInto(dst: array<char>, at: nat, src: string) returns (n: nat)
    requires at <= dst.Length
    modifies dst
    ensures n == Min(dst.Length - at, |src|) && dst[..at + n] == old(dst[..at]) + src[..n]
  {
    n := 0;
    while at + n < dst.Length && n < |src|
      invariant n <= |src| && at + n <= dst.Length && dst[..at] == old(dst[..at]) && dst[at..at + n] == src[..n]
    {
      dst[at + n] := src[n];
      n := n + 1;
    }
    assert dst[..at + n] == dst[..at] + dst[at..at + n];
  }

  class TokenScanner {
    var tail: string
    const carry: array<char>
    var ncarry: nat
    var chunks: nat

    ghost predicate Valid()
      reads this, carry
    {
      carry.Length == KEY_LEN && ncarry <= KEY_LEN
    }

    ghost function View(): Memory
      requires Valid()
      reads this, carry
    {
      Memory(tail, carry[..ncarry], chunks)
    }

    constructor ()
      ensures Valid() && View() == Start && fresh(carry)
    {
      tail, ncarry, chunks := "", 0, 0;
      carry := new char[KEY_LEN];
    }

    method FeedPiece(b: string)
      requires Valid()
      modifies this, carry
      ensures Valid() && View() == Feed(old(View()), b)
    {
      if |b| == 0 { return; }
      FeedWindow(b);
      if ncarry > 0 {
        var k := CompleteFromCarry(b);
        chunks := chunks + k;
      }
      var inside := CountKeys(b, |b|);
      chunks := chunks + inside;
      FeedLast(b);
    }

    method FeedWindow(b: string)
      requires Valid()
      modifies this`tail
      ensures tail == if |b| >= TOKEN_WINDOW then Last(b, TOKEN_WINDOW) else Last(old(tail), TOKEN_WINDOW - |b|) + b
    {
      if |b| >= TOKEN_WINDOW {
        tail := b[|b| - TOKEN_WINDOW..];
      } else {
        var over := |tail| + |b| - TOKEN_WINDOW;
        if over > 0 { tail := tail[over..]; }
        tail := tail + b;
      }
    }

    method CompleteFromCarry(b: string) returns (k: nat)
      requires Valid()
      ensures k == Greedy(Head(carry[..ncarry], b), 0, ncarry)
    {
      var head := new char[2 * KEY_LEN];
      var n := CopyInto(head, 0, carry[..ncarry]);
      assert head[..n] == carry[..ncarry];
      var more := CopyInto(head, n, b[..Min(|b|, KEY_LEN + 1)]);
      assert head[..n + more] == Head(carry[..ncarry], b);
      k := CountKeys(head[..n + more], ncarry);
    }

    /** The last bytes of the carry and a piece shorter than a key. */
    method JoinCarry(b: string) returns (last: string)
      requires Valid() && |b| < KEY_LEN
      ensures last == Last(carry[..ncarry] + b, KEY_LEN)
    {
      var all := new char[2 * KEY_LEN];
      var n := CopyInto(all, 0, carry[..ncarry]);
      assert all[..n] == carry[..ncarry];
      var more := CopyInto(all, n, b);
      n := n + more;
      assert all[..n] == carry[..ncarry] + b;
      last := all[..n][Max(0, n - KEY_LEN)..];
    }

    method FeedLast(b: string)
      requires Valid()
      modifies this`ncarry, carry
      ensures Valid() && carry[..ncarry] == if |b| >= KEY_LEN then Last(b, KEY_LEN)
          else Last(old(carry[..ncarry]) + b, KEY_LEN)
    {
      var last := if |b| >= KEY_LEN then Last(b, KEY_LEN) else "";
      if |b| < KEY_LEN { last := JoinCarry(b); }
      ncarry := CopyInto(carry, 0, last);
    }
  }
}
