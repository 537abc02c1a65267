/**
 * The VAPID public key, as URL-safe base64 without padding, turned into bytes: `urlBase64ToUint8Array` in
 * `apps/web/src/lib/push.ts`. The encoding is that of section 5 of RFC 4648.
 */
module PushKey {

  import opened Text
  import opened Wrappers

  // ---------------------------------------------------------------- eights and sixes

  type Two = t: nat | t < 4

  /** A byte is four pairs of bits, and a letter of the alphabet stands for three, the most significant first. */
  datatype Byte = Byte(a: Two, b: Two, c: Two, d: Two)
  datatype Six = Six(a: Two, b: Two, c: Two)

  function ByteOf(n: nat): (x: Byte)
    requires n < 256
    ensures x.a * 64 + x.b * 16 + x.c * 4 + x.d == n
  {
    var high := n / 4;
    var higher := high / 4;
    Byte(higher / 4, higher % 4, high % 4, n % 4)
  }

  function Code(x: Byte): (n: nat)
    ensures n < 256 && ByteOf(n) == x
  {
    x.a * 64 + x.b * 16 + x.c * 4 + x.d
  }

  function SixOf(v: nat): (x: Six)
    requires v < 64
    ensures x.a * 16 + x.b * 4 + x.c == v
  {
    var high := v / 4;
    Six(high / 4, high % 4, v % 4)
  }

  function Number(x: Six): (v: nat)
    ensures v < 64 && SixOf(v) == x
  {
    x.a * 16 + x.b * 4 + x.c
  }

  // How four groups of six lie in three bytes.

  function First(p: Six, q: Six): Byte { Byte(p.a, p.b, p.c, q.a) }
  function Second(q: Six, r: Six): Byte { Byte(q.b, q.c, r.a, r.b) }
  function Third(r: Six, s: Six): Byte { Byte(r.c, s.a, s.b, s.c) }

  /** Three bytes are four groups of six bits; one or two left over make two or three, filled up with zero bits. */
  function Sixes(bytes: seq<Byte>): (v: seq<Six>)
    ensures |v| % 4 != 1 && (|v| == 0 <==> |bytes| == 0)
    decreases |bytes|
  {
    if |bytes| == 0 then []
    else
      var x := bytes[0];
      if |bytes| == 1 then [Six(x.a, x.b, x.c), Six(x.d, 0, 0)]
      else
        var y := bytes[1];
        if |bytes| == 2 then [Six(x.a, x.b, x.c), Six(x.d, y.a, y.b), Six(y.c, y.d, 0)]
        else
          var z := bytes[2];
          [Six(x.a, x.b, x.c), Six(x.d, y.a, y.b), Six(y.c, y.d, z.a), Six(z.b, z.c, z.d)] + Sixes(bytes[3..])
  }

  /** And back; the bits that fill up a last group are dropped, whatever they are. */
  function Bytes(v: seq<Six>): (bytes: seq<Byte>)
    requires |v| % 4 != 1
    decreases |v|
  {
    if |v| == 0 then []
    else if |v| == 2 then [First(v[0], v[1])]
    else if |v| == 3 then [First(v[0], v[1]), Second(v[1], v[2])]
    else [First(v[0], v[1]), Second(v[1], v[2]), Third(v[2], v[3])] + Bytes(v[4..])
  }

  lemma {:induction false} BytesOfSixes(bytes: seq<Byte>)
    ensures Bytes(Sixes(bytes)) == bytes
    decreases |bytes|
  {
    if |bytes| >= 3 {
      assert Sixes(bytes)[4..] == Sixes(bytes[3..]);
      BytesOfSixes(bytes[3..]);
      assert bytes == [bytes[0], bytes[1], bytes[2]] + bytes[3..];
    }
  }

  /** The bits past the last whole byte are all zero. */
  predicate Canonical(v: seq<Six>) {
    (|v| % 4 == 2 ==> v[|v| - 1].b == 0 && v[|v| - 1].c == 0) && (|v| % 4 == 3 ==> v[|v| - 1].c == 0)
  }

  lemma SixesUnfold(x: Byte, y: Byte, z: Byte, rest: seq<Byte>)
    ensures Sixes([x, y, z] + rest) == [Six(x.a, x.b, x.c), Six(x.d, y.a, y.b), Six(y.c, y.d, z.a), Six(z.b, z.c, z.d)] + Sixes(rest)
  {
    assert ([x, y, z] + rest)[3..] == rest;
  }

  lemma GroupRoundTrips(p: Six, q: Six, r: Six, s: Six, rest: seq<Six>)
    requires |rest| % 4 != 1
    ensures Sixes(Bytes([p, q, r, s] + rest)) == [p, q, r, s] + Sixes(Bytes(rest))
  {
    assert ([p, q, r, s] + rest)[4..] == rest;
    SixesUnfold(First(p, q), Second(q, r), Third(r, s), Bytes(rest));
  }

  lemma SameFront<T>(a: seq<T>, b: seq<T>, c: seq<T>)
    ensures a + b == a + c <==> b == c
  {
    assert (a + b)[|a|..] == b && (a + c)[|a|..] == c;
  }

  lemma OneGroupLess(p: Six, q: Six, r: Six, s: Six, rest: seq<Six>)
    requires |rest| % 4 != 1
    ensures Sixes(Bytes([p, q, r, s] + rest)) == [p, q, r, s] + rest <==> Sixes(Bytes(rest)) == rest
  {
    GroupRoundTrips(p, q, r, s, rest);
    SameFront([p, q, r, s], Sixes(Bytes(rest)), rest);
  }

  lemma CanonicalRest(v: seq<Six>)
    requires |v| >= 4
    ensures Canonical(v) <==> Canonical(v[4..])
  {
    assert |v| > 4 ==> v[|v| - 1] == v[4..][|v| - 5];
  }

  lemma LastGroup(v: seq<Six>)
    requires |v| in {0, 2, 3}
    ensures Sixes(Bytes(v)) == v <==> Canonical(v)
  {
    if |v| == 2 { assert v == [v[0], v[1]]; }
    if |v| == 3 { assert v == [v[0], v[1], v[2]]; }
  }

  /** The key is the encoding of what it decodes to exactly when those bits are zero. */
  lemma {:induction false} SixesOfBytes(v: seq<Six>)
    requires |v| % 4 != 1
    ensures Sixes(Bytes(v)) == v <==> Canonical(v)
    decreases |v|
  {
    if |v| < 4 {
      LastGroup(v);
    } else {
      SixesOfBytes(v[4..]);
      OneGroupLess(v[0], v[1], v[2], v[3], v[4..]);
      assert v == [v[0], v[1], v[2], v[3]] + v[4..];
      CanonicalRest(v);
    }
  }

  // ---------------------------------------------------------------- characters

  predicate Standard(c: char) { 'A' <= c <= 'Z' || 'a' <= c <= 'z' || '0' <= c <= '9' || c == '+' || c == '/' }

  /** Of the standard alphabet or the URL-safe one. */
  predicate Letter(c: char) { Standard(c) || c == '-' || c == '_' }

  function LetterNumber(c: char): (v: nat)
    requires Letter(c)
    ensures v < 64
  {
    if 'A' <= c <= 'Z' then c as int - 'A' as int
    else if 'a' <= c <= 'z' then 26 + c as int - 'a' as int
    else if '0' <= c <= '9' then 52 + c as int - '0' as int
    else if c == '+' || c == '-' then 62
    else 63
  }

  function ValueOf(c: char): Six
    requires Letter(c)
  {
    SixOf(LetterNumber(c))
  }

  /** The URL-safe letter for six bits. */
  function UrlLetter(x: Six): (c: char)
    ensures Letter(c) && ValueOf(c) == x && c != '+' && c != '/'
  {
    var v := Number(x);
    if v < 26 then ('A' as int + v) as char
    else if v < 52 then ('a' as int + (v - 26)) as char
    else if v < 62 then ('0' as int + (v - 52)) as char
    else if v == 62 then '-'
    else '_'
  }

  predicate AllLetters(s: string) { forall i :: 0 <= i < |s| ==> Letter(s[i]) }

  function Values(s: string): seq<Six>
    requires AllLetters(s)
  {
    seq(|s|, i requires 0 <= i < |s| => ValueOf(s[i]))
  }

  function Pads(n: nat): string { seq(n, _ => '=') }

  /** How many `=` complete `n` letters to a multiple of four. */
  function Needed(n: nat): (r: nat)
    ensures (n + r) % 4 == 0 && r < 4
  {
    (4 - n % 4) % 4
  }

  // ---------------------------------------------------------------- which keys are read, and as what

  /** How many letters the text begins with. */
  function Run(t: string): (n: nat)
    ensures n <= |t| && AllLetters(t[..n]) && (n < |t| ==> !Letter(t[n]))
  {
    if t == "" || !Letter(t[0]) then 0
    else
      var n := Run(t[1..]);
      assert forall i :: 0 < i <= n ==> t[i] == t[1..][i - 1];
      n + 1
  }

  predicate OnlyPads(t: string, n: nat) { forall i :: n <= i < |t| ==> t[i] == '=' }

  /** Letters, a number of them that whole bytes can make, and no more `=` after them than would complete four. */
  predicate Readable(t: string) {
    var n := Run(t);
    n > 0 && n % 4 != 1 && OnlyPads(t, n) && |t| - n <= Needed(n)
  }

  function KeyBytes(t: string): seq<Byte>
    requires Readable(t)
  {
    Bytes(Values(t[..Run(t)]))
  }

  // ---------------------------------------------------------------- the code

  function Standardised(c: char): char { if c == '-' then '+' else if c == '_' then '/' else c }

  predicate LettersThenPads(s: string, n: nat) {
    0 < n <= |s| && (forall i :: 0 <= i < n ==> Standard(s[i])) && OnlyPads(s, n)
  }

  /** `/^[A-Za-z0-9+\/]+=*$/`. */
  predicate LooksLikeBase64(s: string) { exists n: nat | n <= |s| :: LettersThenPads(s, n) }

  function Stripped(s: string): string {
    if |s| % 4 != 0 || s == "" || s[|s| - 1] != '=' then s
    else if s[|s| - 2] == '=' then s[..|s| - 2]
    else s[..|s| - 1]
  }

  function Raw(bytes: seq<Byte>): string { seq(|bytes|, i requires 0 <= i < |bytes| => Code(bytes[i]) as char) }

  /** `atob`, the forgiving-base64 decode of the Infra Standard, on text without white space: one character a byte. */
  function Atob(s: string): Option<string> {
    var t := Stripped(s);
    if |t| % 4 == 1 || exists i :: 0 <= i < |t| && !Standard(t[i]) then None else Some(Raw(Bytes(Values(t))))
  }

  function Codes(bytes: seq<Byte>): seq<nat> { seq(|bytes|, i requires 0 <= i < |bytes| => Code(bytes[i])) }

  method UrlBase64ToUint8Array(base64Url: string) returns (r: Result<array<nat>>)
    ensures r.Ok? <==> Readable(Trim(base64Url))
    ensures r.Ok? ==> fresh(r.value) && r.value[..] == Codes(KeyBytes(Trim(base64Url)))
    ensures r == Threw("VAPID public key is empty") <==> Trim(base64Url) == ""
    ensures r == Threw("VAPID public key is not base64") <==>
      var t := Trim(base64Url); t != "" && !(Run(t) > 0 && OnlyPads(t, Run(t)))
  {
    var trimmed := Trim(base64Url);
    if |trimmed| == 0 { return Threw("VAPID public key is empty"); }
    var padding := Pads((4 - |trimmed| % 4) % 4);
    var base64 := seq(|trimmed + padding|, i requires 0 <= i < |trimmed + padding| => Standardised((trimmed + padding)[i]));
    LooksRight(trimmed, base64);
    if !LooksLikeBase64(base64) { return Threw("VAPID public key is not base64"); }
    Decodes(trimmed, base64);
    var raw := Atob(base64);
    if raw.None? { return Threw("The string to be decoded is not correctly encoded."); }
    var bytes := CharCodes(raw.value, KeyBytes(trimmed));
    r := Ok(bytes);
  }

  /** The loop that copies what `atob` returned into a byte array, a character code at a time. */
  method CharCodes(raw: string, ghost codes: seq<Byte>) returns (bytes: array<nat>)
    requires raw == Raw(codes)
    ensures fresh(bytes) && bytes[..] == Codes(codes)
  {
    bytes := new nat[|raw|];
    for i := 0 to |raw|
      invariant forall j :: 0 <= j < i ==> bytes[j] == Code(codes[j])
    {
      bytes[i] := raw[i] as int;
    }
  }

  /** The text as the code pads and rewrites it. */
  ghost predicate Padded(t: string, base64: string) {
    |base64| == |t| + Needed(|t|) && (forall i :: 0 <= i < |t| ==> base64[i] == Standardised(t[i])) && OnlyPads(base64, |t|)
  }

  lemma StandardisedLetter(c: char)
    ensures Letter(c) <==> Standard(Standardised(c))
    ensures Standardised(c) == '=' <==> c == '='
  {
  }

  lemma LooksRight(t: string, base64: string)
    requires t != "" && Padded(t, base64)
    ensures LooksLikeBase64(base64) <==> Run(t) > 0 && OnlyPads(t, Run(t))
  {
    var n := Run(t);
    forall i | 0 <= i < |t| ensures (Letter(t[i]) <==> Standard(base64[i])) && (base64[i] == '=' <==> t[i] == '=') {
      StandardisedLetter(t[i]);
    }
    assert forall i :: 0 <= i < n ==> Letter(t[..n][i]);
    if n > 0 && OnlyPads(t, n) { assert LettersThenPads(base64, n); }
    if LooksLikeBase64(base64) {
      var m: nat :| m <= |base64| && LettersThenPads(base64, m);
      RunIs(t, if m <= |t| then m else |t|);
    }
  }

  lemma {:induction false} RunIs(t: string, m: nat)
    requires m <= |t| && (forall i :: 0 <= i < m ==> Letter(t[i])) && (m < |t| ==> !Letter(t[m]))
    ensures Run(t) == m
  {
    if m > 0 { RunIs(t[1..], m - 1); }
  }

  /** `atob` drops one or two pads, and a third it meets is not of the alphabet. */
  lemma AtobCountsPads(s: string, n: nat)
    requires LettersThenPads(s, n) && |s| % 4 == 0
    ensures Atob(s).Some? <==> |s| - n <= 2
    ensures |s| - n <= 2 ==> n % 4 != 1 && AllLetters(s[..n]) && Atob(s) == Some(Raw(Bytes(Values(s[..n]))))
  {
    assert s[n - 1] != '=';
    if |s| - n > 2 {
      assert |Stripped(s)| == |s| - 2 && !Standard(Stripped(s)[|s| - 3]);
    } else {
      assert Stripped(s) == s[..n];
    }
  }

  /** Once it looks like base64, `atob` takes it or not by the number of pads alone. */
  lemma Decodes(t: string, base64: string)
    requires t != "" && Padded(t, base64) && Run(t) > 0 && OnlyPads(t, Run(t))
    ensures Atob(base64).Some? <==> Readable(t)
    ensures Readable(t) ==> Atob(base64) == Some(Raw(KeyBytes(t)))
  {
    var n := Run(t);
    forall i | 0 <= i < n ensures Standard(base64[i]) && ValueOf(base64[i]) == ValueOf(t[i]) {
      assert t[..n][i] == t[i];
      StandardisedLetter(t[i]);
    }
    assert LettersThenPads(base64, n);
    AtobCountsPads(base64, n);
    PadsNeeded(|t|, n);
    if Readable(t) { assert Values(base64[..n]) == Values(t[..n]); }
  }

  /** Completing the whole to four leaves at most two pads exactly when the letters can do with no more than they need. */
  lemma PadsNeeded(length: nat, n: nat)
    requires n <= length
    ensures length + Needed(length) - n <= 2 <==> n % 4 != 1 && length - n <= Needed(n)
  {
  }

  // ---------------------------------------------------------------- round trips

  /** The unpadded URL-safe encoding of section 5 of RFC 4648. */
  function Encode(bytes: seq<Byte>): string {
    var v := Sixes(bytes);
    seq(|v|, i requires 0 <= i < |v| => UrlLetter(v[i]))
  }

  /** The URL and filename safe alphabet, table 2 of RFC 4648. */
  lemma LettersAreTheAlphabet(v: nat)
    requires v < 64
    ensures var c := UrlLetter(SixOf(v));
      (v < 26 ==> c == 'A' + v as char) && (26 <= v < 52 ==> c == 'a' + (v - 26) as char) &&
      (52 <= v < 62 ==> c == '0' + (v - 52) as char) && (v == 62 ==> c == '-') && (v == 63 ==> c == '_')
  {
    assert Number(SixOf(v)) == v;
  }

  function BytesOf(codes: seq<nat>): seq<Byte>
    requires forall i :: 0 <= i < |codes| ==> codes[i] < 256
  {
    seq(|codes|, i requires 0 <= i < |codes| => ByteOf(codes[i]))
  }

  /** "f", "fo", "foo" and "bar" in bits, two at a time. */
  lemma VectorBits()
    ensures BytesOf([102]) == [Byte(1, 2, 1, 2)] && BytesOf([102, 111]) == [Byte(1, 2, 1, 2), Byte(1, 2, 3, 3)]
    ensures BytesOf([102, 111, 111]) == [Byte(1, 2, 1, 2), Byte(1, 2, 3, 3), Byte(1, 2, 3, 3)]
    ensures BytesOf([98, 97, 114]) == [Byte(1, 2, 0, 2), Byte(1, 2, 0, 1), Byte(1, 3, 0, 2)]
  {
  }

  lemma SpellsOut(v: seq<Six>, text: string)
    requires |v| == |text| && forall i :: 0 <= i < |v| ==> UrlLetter(v[i]) == text[i]
    ensures forall bytes :: Sixes(bytes) == v ==> Encode(bytes) == text
  {
  }

  lemma ShortVectors()
    ensures Encode([Byte(1, 2, 1, 2)]) == "Zg" && Encode([Byte(1, 2, 1, 2), Byte(1, 2, 3, 3)]) == "Zm8"
  {
    SpellsOut([Six(1, 2, 1), Six(2, 0, 0)], "Zg");
    SpellsOut([Six(1, 2, 1), Six(2, 1, 2), Six(3, 3, 0)], "Zm8");
  }

  lemma VectorOfThree(x: Byte, y: Byte, z: Byte, v: seq<Six>, text: string)
    requires v == [Six(x.a, x.b, x.c), Six(x.d, y.a, y.b), Six(y.c, y.d, z.a), Six(z.b, z.c, z.d)]
    requires |text| == 4 && forall i :: 0 <= i < 4 ==> UrlLetter(v[i]) == text[i]
    ensures Encode([x, y, z]) == text
  {
    assert Sixes([x, y, z]) == v + Sixes([]);
    SpellsOut(v, text);
  }

  /** Test vectors of section 10 of RFC 4648, without their padding: "f", "fo", "foo", and the "bar" of "foobar". */
  lemma TestVectors()
    ensures Encode(BytesOf([102])) == "Zg" && Encode(BytesOf([102, 111])) == "Zm8"
    ensures Encode(BytesOf([102, 111, 111])) == "Zm9v" && Encode(BytesOf([98, 97, 114])) == "YmFy"
  {
    VectorBits();
    ShortVectors();
    VectorOfThree(Byte(1, 2, 1, 2), Byte(1, 2, 3, 3), Byte(1, 2, 3, 3), [Six(1, 2, 1), Six(2, 1, 2), Six(3, 3, 1), Six(2, 3, 3)], "Zm9v");
    VectorOfThree(Byte(1, 2, 0, 2), Byte(1, 2, 0, 1), Byte(1, 3, 0, 2), [Six(1, 2, 0), Six(2, 1, 2), Six(0, 1, 1), Six(3, 0, 2)], "YmFy");
  }

  /** A spelling of the bytes: their groups in letters of either alphabet, mixed as one likes. */
  ghost predicate Spells(letters: string, bytes: seq<Byte>) { AllLetters(letters) && Values(letters) == Sixes(bytes) }

  lemma EncodeSpells(bytes: seq<Byte>)
    ensures Spells(Encode(bytes), bytes)
  {
  }

  lemma SpelledIsRead(bytes: seq<Byte>, letters: string, pads: nat)
    requires bytes != [] && Spells(letters, bytes) && pads <= Needed(|letters|)
    ensures Readable(letters + Pads(pads)) && KeyBytes(letters + Pads(pads)) == bytes
  {
    var t := letters + Pads(pads);
    assert |letters| == |Values(letters)| == |Sixes(bytes)|;
    RunIs(t, |letters|);
    assert t[..|letters|] == letters;
    BytesOfSixes(bytes);
  }

  /** What the encoder prints is a key, and reads back as the bytes it was printed from. */
  lemma EncodedIsRead(bytes: seq<Byte>)
    requires bytes != []
    ensures Readable(Encode(bytes)) && KeyBytes(Encode(bytes)) == bytes
  {
    EncodeSpells(bytes);
    SpelledIsRead(bytes, Encode(bytes), 0);
    assert Encode(bytes) + Pads(0) == Encode(bytes);
  }

  lemma KeysHaveNoSpaces(letters: string, pads: nat)
    requires AllLetters(letters) && letters != ""
    ensures var t := letters + Pads(pads); !Space(t[0]) && !Space(t[|t| - 1])
  {
    var t := letters + Pads(pads);
    assert Letter(t[0]) && (Letter(t[|t| - 1]) || t[|t| - 1] == '=');
  }

  /**
   * Every non-empty key is read back from its encoding: in either alphabet, with any white space around it, and
   * with none, some or all of the `=` that complete a multiple of four.
   */
  lemma EveryKeyRoundTrips(bytes: seq<Byte>, letters: string, pads: nat, before: string, after: string)
    requires bytes != [] && Spells(letters, bytes) && pads <= Needed(|letters|)
    requires forall c :: c in before || c in after ==> Space(c)
    ensures var t := Trim(before + (letters + Pads(pads)) + after); Readable(t) && KeyBytes(t) == bytes
  {
    SpelledIsRead(bytes, letters, pads);
    assert |letters| == |Values(letters)| == |Sixes(bytes)|;
    KeysHaveNoSpaces(letters, pads);
    TrimOf(before, letters + Pads(pads), after);
  }

  /** A key that is read is spelled by its bytes exactly when no loose bits are set: nothing else is lost on the way. */
  lemma ReadIsSpelled(t: string)
    requires Readable(t)
    ensures Spells(t[..Run(t)], KeyBytes(t)) <==> Canonical(Values(t[..Run(t)]))
  {
    SixesOfBytes(Values(t[..Run(t)]));
  }
}
