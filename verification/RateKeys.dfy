/** The spelling of store keys (internal/ratelimit/keys.go). Names are byte strings: a char below 256 is a byte. */
module RateKeys {
  type Byte = c: char | c < '\U{100}' witness 'a'
  type Name = seq<Byte>

  /** Bytes with a meaning in a key, and everything outside printable ASCII. */
  predicate Special(c: Byte) { c < '!' || c > '~' || c == '{' || c == '}' || c == '%' }

  function Hex(n: nat): char
    requires n < 16
  {
    "0123456789ABCDEF"[n]
  }

  function EscapeByte(c: Byte): string {
    if Special(c) then ['%', Hex(c as int / 16), Hex(c as int % 16)] else [c]
  }

  function Escape(s: Name): string { if s == [] then [] else Escape(s[..|s| - 1]) + EscapeByte(s[|s| - 1]) }

  /** Escaping in one pass over the bytes. */
  method EscapeKeyPart(s: Name) returns (b: string)
    ensures b == Escape(s)
  {
    b := "";
    for i := 0 to |s|
      invariant b == Escape(s[..i])
    {
      assert s[..i + 1][..i] == s[..i];
      var c := s[i];
      if c < '!' || c > '~' || c == '{' || c == '}' || c == '%' {
        b := b + ['%', Hex(c as int / 16), Hex(c as int % 16)];
      } else {
        b := b + [c];
      }
    }
    assert s[..|s|] == s;
  }

  // ------------------------------------------------------------------ escaping loses nothing

  function Digit(c: char): nat {
    if '0' <= c <= '9' then c as int - '0' as int else if 'A' <= c <= 'F' then c as int - 'A' as int + 10 else 0
  }

  /** Decoding, from the right: a byte is an escape exactly when a percent sign is two places before it. */
  function Unescape(s: string): string {
    if s == [] then []
    else if |s| >= 3 && s[|s| - 3] == '%'
    then Unescape(s[..|s| - 3]) + [(16 * Digit(s[|s| - 2]) + Digit(s[|s| - 1])) as char]
    else Unescape(s[..|s| - 1]) + [s[|s| - 1]]
  }

  lemma HexDigit(n: nat)
    requires n < 16
    ensures Digit(Hex(n)) == n && '0' <= Hex(n) <= 'F' && Hex(n) != '%'
  {
  }

  /** No escape is left open: a percent sign is followed by its two digits. */
  ghost predicate Closed(e: string) { forall i :: 0 <= i < |e| && e[i] == '%' ==> i + 2 < |e| }

  lemma EscapeByteShape(c: Byte)
    ensures var e := EscapeByte(c);
            && (forall i :: 0 <= i < |e| ==> '!' <= e[i] <= '~' && e[i] != '{' && e[i] != '}'
                                             && (e[i] == '%' ==> i == 0 && |e| == 3))
            && (if Special(c) then |e| == 3 && e[0] == '%' && e[1] != '%' && e[2] != '%'
                && (16 * Digit(e[1]) + Digit(e[2])) as char == c
                else e == [c] && c != '%')
  {
    HexDigit(c as int / 16);
    HexDigit(c as int % 16);
  }

  ghost predicate Plain(e: string) { forall i :: 0 <= i < |e| ==> '!' <= e[i] <= '~' && e[i] != '{' && e[i] != '}' }

  lemma UnescapeAppend(e: string, c: Byte)
    requires Closed(e)
    ensures Unescape(e + EscapeByte(c)) == Unescape(e) + [c]
  {
    var f := EscapeByte(c);
    EscapeByteShape(c);
    if Special(c) {
      assert (e + f)[..|e + f| - 3] == e;
    } else {
      assert (e + f)[..|e + f| - 1] == e;
      assert |e| >= 2 ==> e[|e| - 2] != '%';
    }
  }

  lemma PlainAppend(e: string, c: Byte)
    requires Closed(e) && Plain(e)
    ensures Closed(e + EscapeByte(c)) && Plain(e + EscapeByte(c))
  {
    EscapeByteShape(c);
  }

  /** Escaping leaves no brace inside and only printable bytes. */
  lemma {:induction false} EscapeIsPlain(s: Name)
    ensures Closed(Escape(s)) && Plain(Escape(s))
  {
    if s != [] {
      EscapeIsPlain(s[..|s| - 1]);
      PlainAppend(Escape(s[..|s| - 1]), s[|s| - 1]);
    }
  }

  /** Escaping loses nothing, so distinct names stay distinct. */
  lemma {:induction false} EscapeRoundTrip(s: Name)
    ensures Unescape(Escape(s)) == s
  {
    if s != [] {
      var t := s[..|s| - 1];
      EscapeRoundTrip(t);
      EscapeIsPlain(t);
      UnescapeAppend(Escape(t), s[|s| - 1]);
      PutBack(s, Unescape(Escape(t)));
    }
  }

  lemma PutBack(s: string, t: string)
    requires s != [] && t == s[..|s| - 1]
    ensures t + [s[|s| - 1]] == s
  {
  }

  // ------------------------------------------------------------------ the keys

  datatype StoreKey =
    | RequestBucket(name: Name)
    | TokenBucket(name: Name)
    | LeaseSet(name: Name)
    | ModelBucket(name: Name)

  const UNUSED_MODEL := "rl:model:{}"

  function Suffix(k: StoreKey): string {
    match k
    case RequestBucket(_) => ":req"
    case TokenBucket(_) => ":tok"
    case LeaseSet(_) => ":conc"
    case ModelBucket(_) => ""
  }

  function Head(k: StoreKey): string { if k.ModelBucket? then "rl:model:{" else "rl:{" }

  function Spell(k: StoreKey): string { Head(k) + Escape(k.name) + "}" + Suffix(k) }

  /** Where the closing brace is tells the escaped part and what follows it. */
  lemma FirstBrace(head: string, e: string, f: string, tail: string, rest: string)
    requires '}' !in e && '}' !in f && head + e + "}" + tail == head + f + "}" + rest
    ensures e == f && tail == rest
  {
    var x, y := head + e + "}" + tail, head + f + "}" + rest;
    assert x[|head| + |e|] == '}' && y[|head| + |f|] == '}';
    assert |e| == |f|;
    assert e == x[|head|..|head| + |e|] && f == y[|head|..|head| + |f|];
    assert tail == x[|head| + |e| + 1..] && rest == y[|head| + |f| + 1..];
  }

  lemma SpellParts(k: StoreKey)
    ensures Spell(k)[3] == Head(k)[3] && '{' !in Escape(k.name) && '}' !in Escape(k.name)
  {
    EscapeIsPlain(k.name);
  }

  /** Keys of different kinds or different names never collide. */
  lemma KeysAreDistinct(a: StoreKey, b: StoreKey)
    requires Spell(a) == Spell(b)
    ensures a == b
  {
    SpellParts(a);
    SpellParts(b);
    EscapeRoundTrip(a.name);
    EscapeRoundTrip(b.name);
    assert a.ModelBucket? == b.ModelBucket?;
    FirstBrace(Head(a), Escape(a.name), Escape(b.name), Suffix(a), Suffix(b));
    assert |Suffix(a)| == |Suffix(b)| && (a.ModelBucket? || Suffix(a)[1] == Suffix(b)[1]);
  }

  /** The placeholder for an uncapped model is the key of the empty name, so no named model and no tenant has it. */
  lemma PlaceholderIsUnused(k: StoreKey)
    ensures Spell(k) == UNUSED_MODEL <==> k == ModelBucket([])
  {
    assert Spell(ModelBucket([])) == UNUSED_MODEL;
    if Spell(k) == UNUSED_MODEL { KeysAreDistinct(k, ModelBucket([])); }
  }

  /** The text between the first opening brace and the next closing one. */
  ghost predicate HashTag(key: string, tag: string) {
    exists i, j | 0 <= i < j < |key| ::
      key[i] == '{' && key[j] == '}' && key[i + 1..j] == tag && '{' !in key[..i] && '}' !in key[i + 1..j]
  }

  /** Every tenant key carries exactly the escaped tenant as its hash tag, so a name cannot close the tag early. */
  lemma TenantHashTag(k: StoreKey)
    requires !k.ModelBucket?
    ensures HashTag(Spell(k), Escape(k.name))
  {
    SpellParts(k);
    var s, e := Spell(k), Escape(k.name);
    assert s[3] == '{' && s[4 + |e|] == '}' && s[3 + 1..4 + |e|] == e && '{' !in s[..3];
  }
}
