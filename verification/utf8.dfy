/** redact_hash_truncate: cutting a text to a byte cap without splitting a character. */
module Utf8 {
  import opened Options

  predicate Scalar(c: int) { 0 <= c < 0xD800 || 0xE000 <= c <= 0x10FFFF }
  type Char = c: int | 0 <= c < 0xD800 || 0xE000 <= c <= 0x10FFFF
  type Byte = b: int | 0 <= b < 256

  /** Section 3 of RFC 3629. */
  function EncodeOne(c: Char): (r: seq<Byte>)
    ensures 1 <= |r| <= 4
  {
    var c: int := c;
    if c < 0x80 then [c]
    else if c < 0x800 then [0xC0 + c / 64, 0x80 + c % 64]
    else if c < 0x10000 then [0xE0 + c / 4096, 0x80 + c / 64 % 64, 0x80 + c % 64]
    else [0xF0 + c / 262144, 0x80 + c / 4096 % 64, 0x80 + c / 64 % 64, 0x80 + c % 64]
  }

  function Encode(s: seq<Char>): seq<Byte> {
    if s == [] then [] else EncodeOne(s[0]) + Encode(s[1..])
  }

  /** Length announced by a lead byte; 0 when the byte cannot lead. */
  function Announced(b: Byte): nat {
    if b < 0x80 then 1 else if b < 0xC0 then 0 else if b < 0xE0 then 2
    else if b < 0xF0 then 3 else if b < 0xF8 then 4 else 0
  }

  function Tail(b: Byte): int { (b as int) - 0x80 }

  /** The number spelled by a sequence of the announced length. */
  function Spelled(b: seq<Byte>): int
    requires b != [] && 0 < Announced(b[0]) <= |b|
  {
    var lead: int := b[0];
    match Announced(b[0])
    case 1 => lead
    case 2 => (lead - 0xC0) * 64 + Tail(b[1])
    case 3 => (lead - 0xE0) * 4096 + Tail(b[1]) * 64 + Tail(b[2])
    case _ => (lead - 0xF0) * 262144 + Tail(b[1]) * 4096 + Tail(b[2]) * 64 + Tail(b[3])
  }

  /** The character whose encoding starts `b`, if there is one. */
  function First(b: seq<Byte>): Option<Char>
    requires b != []
  {
    var n := Announced(b[0]);
    if n == 0 || |b| < n then None
    else
      var c := Spelled(b);
      if Scalar(c) && EncodeOne(c) == b[..n] then Some(c) else None
  }

  /** bytes.decode("utf-8", errors="ignore"): ill-formed bytes are skipped. */
  function DecodeIgnore(b: seq<Byte>): seq<Char> {
    if b == [] then []
    else match First(b)
      case Some(c) => [c] + DecodeIgnore(b[|EncodeOne(c)|..])
      case None => DecodeIgnore(b[1..])
  }

  // ---- decoding what was encoded ----

  lemma SixBitGroups(c: nat)
    ensures c == c / 64 * 64 + c % 64
    ensures c / 64 == c / 4096 * 64 + c / 64 % 64
    ensures c / 4096 == c / 262144 * 64 + c / 4096 % 64
    ensures 0 <= c % 64 < 64 && 0 <= c / 64 % 64 < 64 && 0 <= c / 4096 % 64 < 64
  {
    assert c / 64 / 64 == c / 4096;
    assert c / 4096 / 64 == c / 262144;
  }

  lemma LeadAnnounces(c: Char)
    ensures Announced(EncodeOne(c)[0]) == |EncodeOne(c)|
    ensures Spelled(EncodeOne(c)) == c
    ensures forall i | 1 <= i < |EncodeOne(c)| :: Announced(EncodeOne(c)[i]) == 0
  {
    SixBitGroups(c);
  }

  lemma FirstOfEncoded(c: Char, rest: seq<Byte>)
    ensures First(EncodeOne(c) + rest) == Some(c)
  {
    LeadAnnounces(c);
    var b := EncodeOne(c) + rest;
    assert b[0] == EncodeOne(c)[0] && b[..|EncodeOne(c)|] == EncodeOne(c);
    assert Spelled(b) == Spelled(EncodeOne(c));
  }

  /** Bytes that cannot lead decode to nothing. */
  lemma {:induction false} TailBytesVanish(b: seq<Byte>)
    requires forall i | 0 <= i < |b| :: Announced(b[i]) == 0
    ensures DecodeIgnore(b) == []
  {
    if b != [] { TailBytesVanish(b[1..]); }
  }

  /** A character cut short decodes to nothing. */
  lemma CutCharacterVanishes(c: Char, n: nat)
    requires n < |EncodeOne(c)|
    ensures DecodeIgnore(EncodeOne(c)[..n]) == []
  {
    LeadAnnounces(c);
    var b := EncodeOne(c)[..n];
    if b != [] { TailBytesVanish(b[1..]); }
  }

  /** How many leading characters of `s` fit into `cap` bytes. */
  function Fitting(s: seq<Char>, cap: nat): nat {
    if s == [] || |EncodeOne(s[0])| > cap then 0 else 1 + Fitting(s[1..], cap - |EncodeOne(s[0])|)
  }

  /** Decoding the first `cap` bytes gives back exactly the characters that fit whole. */
  lemma {:induction false} DecodeOfCut(s: seq<Char>, cap: nat)
    requires cap <= |Encode(s)|
    ensures Fitting(s, cap) <= |s| && DecodeIgnore(Encode(s)[..cap]) == s[..Fitting(s, cap)]
  {
    if s != [] {
      var n := |EncodeOne(s[0])|;
      if n <= cap {
        DecodeOfCut(s[1..], cap - n);
        var rest := Encode(s[1..])[..cap - n];
        assert Encode(s)[..cap] == EncodeOne(s[0]) + rest;
        FirstOfEncoded(s[0], rest);
        assert (EncodeOne(s[0]) + rest)[n..] == rest;
        assert s[..Fitting(s, cap)] == [s[0]] + s[1..][..Fitting(s[1..], cap - n)];
      } else {
        assert Encode(s)[..cap] == EncodeOne(s[0])[..cap];
        CutCharacterVanishes(s[0], cap);
      }
    }
  }

  /** Encoding and decoding a whole text gives the text back. */
  lemma RoundTrip(s: seq<Char>)
    ensures DecodeIgnore(Encode(s)) == s
  {
    DecodeOfCut(s, |Encode(s)|);
    FittingIsLongest(s, |Encode(s)|);
    assert Encode(s)[..|Encode(s)|] == Encode(s);
    assert s[..|s|] == s;
  }

  /** `Fitting` is the longest prefix whose encoding fits; when not everything fits it leaves at most 3 bytes unused. */
  lemma {:induction false} FittingIsLongest(s: seq<Char>, cap: nat)
    ensures Fitting(s, cap) <= |s| && |Encode(s[..Fitting(s, cap)])| <= cap
    ensures forall k | 0 <= k <= |s| :: |Encode(s[..k])| <= cap <==> k <= Fitting(s, cap)
    ensures cap < |Encode(s)| ==> cap - |Encode(s[..Fitting(s, cap)])| <= 3
  {
    if s != [] {
      var n := |EncodeOne(s[0])|;
      forall k | 1 <= k <= |s| ensures Encode(s[..k]) == EncodeOne(s[0]) + Encode(s[1..][..k - 1]) {
        assert s[..k][1..] == s[1..][..k - 1];
      }
      if n <= cap {
        FittingIsLongest(s[1..], cap - n);
        forall k | 0 <= k <= |s| ensures |Encode(s[..k])| <= cap <==> k <= Fitting(s, cap) {
          if k > 0 { assert |Encode(s[1..][..k - 1])| <= cap - n <==> k - 1 <= Fitting(s[1..], cap - n); }
        }
      }
    }
  }

  /** The bytes of `a` occur in `b`, in order. */
  predicate Part(a: seq<Byte>, b: seq<Byte>) {
    a == [] || (b != [] && ((a[0] == b[0] && Part(a[1..], b[1..])) || Part(a, b[1..])))
  }

  lemma {:induction false} PartBehind(a: seq<Byte>, b: seq<Byte>, front: seq<Byte>)
    requires Part(a, b)
    ensures Part(front + a, front + b)
  {
    if front == [] {
      assert front + a == a && front + b == b;
    } else {
      PartBehind(a, b, front[1..]);
      assert (front + a)[1..] == front[1..] + a && (front + b)[1..] == front[1..] + b;
    }
  }

  /** Whatever the bytes, decoding invents nothing: the characters' encodings are among them, in order. */
  lemma {:induction false} DecodedIsPart(b: seq<Byte>)
    ensures Part(Encode(DecodeIgnore(b)), b)
    decreases |b|
  {
    if b != [] {
      match First(b)
      case Some(c) =>
        var n := |EncodeOne(c)|;
        DecodedIsPart(b[n..]);
        assert b == EncodeOne(c) + b[n..];
        PartBehind(Encode(DecodeIgnore(b[n..])), b[n..], EncodeOne(c));
        assert Encode(DecodeIgnore(b)) == EncodeOne(c) + Encode(DecodeIgnore(b[n..])) by {
          assert DecodeIgnore(b)[1..] == DecodeIgnore(b[n..]);
        }
      case None => DecodedIsPart(b[1..]);
    }
  }

  // ---- the envelope ----

  /** SHA-256 stands for the bytes it was taken over. */
  datatype OutputEnvelope = OutputEnvelope(text: seq<Char>, truncated: bool, sha256: seq<Byte>)

  /** `redact_text`: each compiled pattern, as the substitution it performs, in turn. */
  function Redacted(text: seq<Char>, patterns: seq<seq<Char> -> seq<Char>>): seq<Char>
    decreases |patterns|
  {
    if patterns == [] then text else Redacted(patterns[0](text), patterns[1..])
  }

  /**
    The texts between the substitutions: the first is the given one, each next one the last through the next
    pattern.
  */
  predicate Chain(xs: seq<seq<Char>>, text: seq<Char>, patterns: seq<seq<Char> -> seq<Char>>) {
    && |xs| == |patterns| + 1 && xs[0] == text
    && forall i | 0 <= i < |patterns| :: xs[i + 1] == patterns[i](xs[i])
  }

  /** There is one such chain, and it ends in the redacted text. */
  lemma {:induction false} ChainEndsRedacted(xs: seq<seq<Char>>, text: seq<Char>, patterns: seq<seq<Char> -> seq<Char>>)
    requires Chain(xs, text, patterns)
    ensures xs[|patterns|] == Redacted(text, patterns)
    decreases |patterns|
  {
    if patterns != [] {
      assert xs[1] == patterns[0](xs[0]);
      forall i | 0 <= i < |patterns| - 1 ensures xs[1..][i + 1] == patterns[1..][i](xs[1..][i]) {
        assert xs[i + 2] == patterns[i + 1](xs[i + 1]);
      }
      ChainEndsRedacted(xs[1..], patterns[0](text), patterns[1..]);
    }
  }

  method RedactText(text: seq<Char>, patterns: seq<seq<Char> -> seq<Char>>) returns (out: seq<Char>)
    ensures exists xs :: Chain(xs, text, patterns) && out == xs[|patterns|]
    ensures out == Redacted(text, patterns)
  {
    out := text;
    ghost var xs := [text];
    for i := 0 to |patterns|
      invariant Chain(xs, text, patterns[..i]) && out == xs[i]
    {
      out := patterns[i](out);
      xs := xs + [out];
      assert patterns[..i + 1][..i] == patterns[..i];
    }
    assert patterns[..|patterns|] == patterns;
    ChainEndsRedacted(xs, text, patterns);
  }

  function RedactHashTruncate(text: seq<Char>, patterns: seq<seq<Char> -> seq<Char>>, cap: nat): OutputEnvelope {
    var redacted := Redacted(text, patterns);
    var bytes := Encode(redacted);
    if |bytes| <= cap then OutputEnvelope(redacted, false, bytes)
    else OutputEnvelope(DecodeIgnore(bytes[..cap]), true, bytes)
  }

  /**
    With every pattern applied in turn, the text kept is the longest prefix of what is left whose encoding fits the
    cap; it wastes at most three bytes, and is marked truncated exactly when it is not everything. The digest is
    taken over all of it.
  */
  lemma KeepsLongestFittingPrefix(text: seq<Char>, patterns: seq<seq<Char> -> seq<Char>>, cap: nat, xs: seq<seq<Char>>)
    requires Chain(xs, text, patterns)
    ensures var env, all := RedactHashTruncate(text, patterns, cap), xs[|patterns|];
      && env.text <= all && |Encode(env.text)| <= cap
      && (forall k | |env.text| < k <= |all| :: |Encode(all[..k])| > cap)
      && (env.truncated <==> |Encode(all)| > cap) && (env.truncated <==> env.text != all)
      && (env.truncated ==> cap - |Encode(env.text)| <= 3)
      && env.sha256 == Encode(all)
  {
    var all := xs[|patterns|];
    ChainEndsRedacted(xs, text, patterns);
    FittingIsLongest(all, cap);
    assert all[..|all|] == all;
    if |Encode(all)| > cap { DecodeOfCut(all, cap); }
  }

  /** The digest identifies what the patterns leave whole, however much of it is kept. */
  lemma DigestIgnoresCap(a: seq<Char>, b: seq<Char>, patterns: seq<seq<Char> -> seq<Char>>, capA: nat, capB: nat,
                         xs: seq<seq<Char>>, ys: seq<seq<Char>>)
    requires Chain(xs, a, patterns) && Chain(ys, b, patterns)
    ensures RedactHashTruncate(a, patterns, capA).sha256 == RedactHashTruncate(b, patterns, capB).sha256
       <==> xs[|patterns|] == ys[|patterns|]
  {
    ChainEndsRedacted(xs, a, patterns);
    ChainEndsRedacted(ys, b, patterns);
    RoundTrip(xs[|patterns|]);
    RoundTrip(ys[|patterns|]);
  }

  // ---- the encoding, bit by bit ----

  /** A byte that carries six bits after the first one. */
  predicate Follows(b: Byte) { 0x80 <= b < 0xC0 }

  /** What a byte says beyond the marks of its place. */
  function Payload(b: Byte, marks: int): int { (b as int) - marks }

  /**
    Section 3 of RFC 3629: the lead byte tells the length, and the payload bits, high ones first, are the
    character.
  */
  lemma EncodesBits(c: Char)
    ensures c < 0x80 ==> EncodeOne(c) == [c as int]
    ensures 0x80 <= c < 0x800 ==> var r := EncodeOne(c);
      |r| == 2 && 0xC2 <= r[0] < 0xE0 && Follows(r[1]) && Payload(r[0], 0xC0) * 64 + Payload(r[1], 0x80) == c
    ensures 0x800 <= c < 0x10000 ==> var r := EncodeOne(c);
      && |r| == 3 && 0xE0 <= r[0] < 0xF0 && Follows(r[1]) && Follows(r[2])
      && Payload(r[0], 0xE0) * 4096 + Payload(r[1], 0x80) * 64 + Payload(r[2], 0x80) == c
    ensures 0x10000 <= c ==> var r := EncodeOne(c);
      && |r| == 4 && 0xF0 <= r[0] < 0xF5 && Follows(r[1]) && Follows(r[2]) && Follows(r[3])
      && Payload(r[0], 0xF0) * 262144 + Payload(r[1], 0x80) * 4096 + Payload(r[2], 0x80) * 64 + Payload(r[3], 0x80) == c
  {
    SixBitGroups(c);
  }

  /** A text is encoded character by character. */
  lemma {:induction false} EncodesInTurn(s: seq<Char>, c: Char)
    ensures Encode(s + [c]) == Encode(s) + EncodeOne(c) && Encode([]) == []
  {
    if s == [] {
      assert [] + [c] == [c] && [c][1..] == [];
    } else {
      assert (s + [c])[1..] == s[1..] + [c];
      EncodesInTurn(s[1..], c);
    }
  }
}
