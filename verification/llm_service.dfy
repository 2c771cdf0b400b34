/**
 * The parts of the LLM layer that do not call the model: the deterministic fallback
 * embedding used when the embedding service fails, and the context the cover-letter
 * prompt is built from. SHA-256 is a parameter: any function from bytes to 32 bytes.
 */
module LlmService {
  import opened Wrappers
  import opened Text
  import opened Models

  newtype byte = x: int | 0 <= x < 256

  /** A SHA-256 digest: 32 bytes. */
  type Digest = d: seq<byte> | |d| == 32 witness seq(32, _ => 0 as byte)

  /** The UTF-8 encoding of one Unicode scalar value (str.encode() encodes each character in turn). */
  function EncodeChar(c: char): (r: seq<byte>)
    ensures 1 <= |r| <= 4
    ensures |r| == 1 <==> c as int < 0x80
    ensures c as int < 0x80 ==> r[0] as int == c as int
    ensures |r| > 1 ==> r[0] >= 0xC0 && forall k :: 1 <= k < |r| ==> 0x80 <= r[k] < 0xC0
  {
    var n := c as int;
    if n < 0x80 then [n as byte]
    else if n < 0x800 then [(0xC0 + n / 64) as byte, (0x80 + n % 64) as byte]
    else if n < 0x10000 then [(0xE0 + n / 4096) as byte, (0x80 + n / 64 % 64) as byte, (0x80 + n % 64) as byte]
    else [(0xF0 + n / 262144) as byte, (0x80 + n / 4096 % 64) as byte,
          (0x80 + n / 64 % 64) as byte, (0x80 + n % 64) as byte]
  }

  /** str.encode(): UTF-8. */
  function Utf8Encode(s: string): (r: seq<byte>)
    ensures |s| <= |r| <= 4 * |s|
    decreases |s|
  {
    if s == [] then [] else EncodeChar(s[0]) + Utf8Encode(s[1..])
  }

  /** An ASCII string encodes to its own code points, one byte each. */
  lemma {:induction false} Utf8Ascii(s: string)
    requires forall i :: 0 <= i < |s| ==> s[i] as int < 0x80
    ensures |Utf8Encode(s)| == |s|
    ensures forall i :: 0 <= i < |s| ==> Utf8Encode(s)[i] as int == s[i] as int
    decreases |s|
  {
    if s != [] {
      Utf8Ascii(s[1..]);
      assert Utf8Encode(s) == EncodeChar(s[0]) + Utf8Encode(s[1..]);
      forall i | 0 <= i < |s| ensures Utf8Encode(s)[i] as int == s[i] as int {
        if i > 0 { assert s[1..][i - 1] == s[i]; }
      }
    }
  }

  /** `(b / 255.0) * 2 - 1`, over exact rationals: 0 maps to -1 and 255 to 1. */
  function ByteToUnit(b: byte): (r: real)
    ensures -1.0 <= r <= 1.0
    ensures b == 0 ==> r == -1.0
    ensures b == 255 ==> r == 1.0
  {
    (b as real / 255.0) * 2.0 - 1.0
  }

  /** Larger bytes map to larger values, so the mapping loses nothing. */
  lemma ByteToUnitInjective(a: byte, b: byte)
    requires ByteToUnit(a) == ByteToUnit(b)
    ensures a == b
  {
    assert a as real / 255.0 == b as real / 255.0;
  }

  /** The fallback vector as a whole: entry i comes from byte i mod 32 of the digest of the UTF-8 text. */
  function FallbackVector(text: string, sha256: seq<byte> -> Digest): (v: Embedding)
  {
    var digest := sha256(Utf8Encode(text));
    seq(EmbeddingDim, i requires 0 <= i < EmbeddingDim => ByteToUnit(digest[i % 32]))
  }

  /**
   * The fallback branch of generate_embedding: a 1024-entry list built by appending
   * one mapped digest byte per index.
   */
  method FallbackEmbedding(text: string, sha256: seq<byte> -> Digest) returns (vector: seq<real>)
    ensures |vector| == EmbeddingDim
    ensures forall i :: 0 <= i < |vector| ==> vector[i] == ByteToUnit(sha256(Utf8Encode(text))[i % 32])
    ensures vector == FallbackVector(text, sha256)
  {
    var hashBytes := sha256(Utf8Encode(text));
    vector := [];
    for i := 0 to 1024
      invariant |vector| == i
      invariant forall j :: 0 <= j < i ==> vector[j] == ByteToUnit(hashBytes[j % |hashBytes|])
    {
      vector := vector + [ByteToUnit(hashBytes[i % |hashBytes|])];
    }
  }

  /** Every fallback entry lies in [-1, 1]. */
  lemma FallbackInRange(text: string, sha256: seq<byte> -> Digest)
    ensures forall i :: 0 <= i < EmbeddingDim ==> -1.0 <= FallbackVector(text, sha256)[i] <= 1.0
  {
  }

  /** The fallback vector repeats with period 32. */
  lemma FallbackPeriodic(text: string, sha256: seq<byte> -> Digest)
    ensures var v := FallbackVector(text, sha256);
      forall i :: 0 <= i < EmbeddingDim - 32 ==> v[i] == v[i + 32]
  {
    var v := FallbackVector(text, sha256);
    forall i | 0 <= i < EmbeddingDim - 32 ensures v[i] == v[i + 32] {
      assert (i + 32) % 32 == i % 32;
    }
  }

  /**
   * The fallback vector determines the digest: two texts get the same vector exactly
   * when their digests agree. In particular the same text always gets the same vector.
   */
  lemma FallbackDeterminedByDigest(a: string, b: string, sha256: seq<byte> -> Digest)
    ensures FallbackVector(a, sha256) == FallbackVector(b, sha256) <==> sha256(Utf8Encode(a)) == sha256(Utf8Encode(b))
  {
    var da, db := sha256(Utf8Encode(a)), sha256(Utf8Encode(b));
    if FallbackVector(a, sha256) == FallbackVector(b, sha256) {
      forall k | 0 <= k < 32 ensures da[k] == db[k] {
        assert FallbackVector(a, sha256)[k] == FallbackVector(b, sha256)[k];
        ByteToUnitInjective(da[k], db[k]);
      }
    }
  }

  /**
   * generate_embedding: the service's vector when the call succeeds (`response` holds it),
   * otherwise the fallback vector.
   */
  method GenerateEmbedding(text: string, response: Option<Embedding>, sha256: seq<byte> -> Digest)
    returns (embedding: seq<real>)
    ensures |embedding| == EmbeddingDim
    ensures response.Some? ==> embedding == response.value
    ensures response.None? ==> embedding == FallbackVector(text, sha256)
  {
    if response.Some? {
      embedding := response.value;
    } else {
      embedding := FallbackEmbedding(text, sha256);
    }
  }

  /** An experience chunk as handed to the LLM prompts. */
  datatype Chunk = Chunk(title: string, company: Option<string>, content: string, tags: seq<string>)

  /** One chunk as the cover-letter prompt renders it. */
  function ProjectText(c: Chunk): string {
    "PROJECT: " + c.title + "\nDETAILS: " + c.content
  }

  /** The chunks the cover-letter prompt uses: `relevant_chunks[:3]`. */
  function CoverLetterChunks(chunks: seq<Chunk>): (r: seq<Chunk>)
    ensures |r| == if |chunks| < 3 then |chunks| else 3
    ensures forall i :: 0 <= i < |r| ==> r[i] == chunks[i]
  {
    if |chunks| <= 3 then chunks else chunks[..3]
  }

  /** The experience text of the cover-letter prompt, one entry per used chunk, blank-line separated. */
  function CoverLetterContext(chunks: seq<Chunk>): string {
    var used := CoverLetterChunks(chunks);
    Join(seq(|used|, i requires 0 <= i < |used| => ProjectText(used[i])), "\n\n")
  }

  /** Only the first three chunks reach the cover-letter prompt: the rest cannot change it. */
  lemma CoverLetterIgnoresRest(a: seq<Chunk>, b: seq<Chunk>)
    requires |a| >= 3 && |b| >= 3 && a[..3] == b[..3]
    ensures CoverLetterContext(a) == CoverLetterContext(b)
  {
    assert CoverLetterChunks(a) == CoverLetterChunks(b);
  }
}
