/**
 * ingestion/fingerprint.py: the corpus fingerprint is a hash of the UTF-8
 * encoding of every document's text, fed to one hasher in list order.
 * The hash function itself (SHA-256 there) is a parameter.
 */
module Fingerprinting {
  import opened Documents

  type Byte = b: int | 0 <= b < 256

  /** The hex digest the hash function produces. */
  type Digest = string

  type HashFn = seq<Byte> -> Digest

  /** UTF-8 encoding of one Unicode scalar value. */
  function Utf8Char(c: char): (bytes: seq<Byte>)
    ensures 1 <= |bytes| <= 4
    ensures (c as int < 0x80) <==> |bytes| == 1
  {
    var n := c as int;
    if n < 0x80 then [n]
    else if n < 0x800 then [0xC0 + n / 0x40, 0x80 + n % 0x40]
    else if n < 0x1_0000 then [0xE0 + n / 0x1000, 0x80 + (n / 0x40) % 0x40, 0x80 + n % 0x40]
    else [0xF0 + n / 0x4_0000, 0x80 + (n / 0x1000) % 0x40, 0x80 + (n / 0x40) % 0x40, 0x80 + n % 0x40]
  }

  /** Python's `s.encode()`, UTF-8. */
  function Utf8(s: string): seq<Byte> {
    if s == [] then [] else Utf8Char(s[0]) + Utf8(s[1..])
  }

  /** Encoding distributes over concatenation. */
  lemma {:induction false} Utf8Append(a: string, b: string)
    ensures Utf8(a + b) == Utf8(a) + Utf8(b)
  {
    if a != [] {
      assert (a + b)[0] == a[0];
      assert (a + b)[1..] == a[1..] + b;
      Utf8Append(a[1..], b);
    } else {
      assert a + b == b;
    }
  }

  /** The text of all documents, concatenated in list order without separators. */
  function ConcatContents(docs: seq<Doc>): string {
    if docs == [] then "" else ConcatContents(docs[..|docs| - 1]) + docs[|docs| - 1].pageContent
  }

  /** The digest `fingerprint_docs` returns. */
  function Fingerprint(docs: seq<Doc>, hash: HashFn): Digest {
    hash(Utf8(ConcatContents(docs)))
  }

  /** An incremental hasher: `update` feeds bytes, `hexdigest` hashes everything fed so far. */
  class Hasher {
    const hash: HashFn
    var fed: seq<Byte>

    constructor (hash: HashFn)
      ensures this.hash == hash && fed == []
    {
      this.hash := hash;
      fed := [];
    }

    method Update(data: seq<Byte>)
      modifies this
      ensures fed == old(fed) + data
    {
      fed := fed + data;
    }

    function HexDigest(): Digest
      reads this
    {
      hash(fed)
    }
  }

  /** `fingerprint_docs(docs)`: one hasher, updated once per document. */
  method FingerprintDocs(docs: seq<Doc>, hash: HashFn) returns (fp: Digest)
    ensures fp == hash(Utf8(ConcatContents(docs)))
  {
    var h := new Hasher(hash);
    for i := 0 to |docs|
      invariant h.hash == hash
      invariant h.fed == Utf8(ConcatContents(docs[..i]))
    {
      assert docs[..i + 1][..i] == docs[..i];
      Utf8Append(ConcatContents(docs[..i]), docs[i].pageContent);
      h.Update(Utf8(docs[i].pageContent));
    }
    assert docs[..|docs|] == docs;
    fp := h.HexDigest();
  }

  /** Appending a document extends the hashed input by exactly that document's encoded text. */
  lemma FingerprintInputAppend(docs: seq<Doc>, d: Doc)
    ensures Utf8(ConcatContents(docs + [d])) == Utf8(ConcatContents(docs)) + Utf8(d.pageContent)
  {
    assert (docs + [d])[..|docs|] == docs;
    Utf8Append(ConcatContents(docs), d.pageContent);
  }

  /** The empty list hashes the empty input. */
  lemma FingerprintOfNoDocuments(hash: HashFn)
    ensures Fingerprint([], hash) == hash([])
  {
  }

  /** Only the concatenated text is hashed: lists that concatenate to the same text share a digest. */
  lemma FingerprintSeesOnlyConcatenation(a: seq<Doc>, b: seq<Doc>, hash: HashFn)
    requires ConcatContents(a) == ConcatContents(b)
    ensures Fingerprint(a, hash) == Fingerprint(b, hash)
  {
  }

  /**
   * Moving text across a document boundary, or renaming the files, leaves
   * the digest unchanged: ["ab", "c"] and ["a", "bc"] from other paths collide.
   */
  lemma FingerprintIgnoresBoundariesAndSources(hash: HashFn)
    ensures Fingerprint([Doc("data/policies/x.md", "ab"), Doc("data/policies/y.md", "c")], hash)
         == Fingerprint([Doc("data/incidents/p.txt", "a"), Doc("data/incidents/q.txt", "bc")], hash)
  {
    var a := [Doc("data/policies/x.md", "ab"), Doc("data/policies/y.md", "c")];
    var b := [Doc("data/incidents/p.txt", "a"), Doc("data/incidents/q.txt", "bc")];
    assert a[..1] == [a[0]] && a[..1][..0] == [];
    assert b[..1] == [b[0]] && b[..1][..0] == [];
    assert ConcatContents(a) == "ab" + "c";
    assert ConcatContents(b) == "a" + "bc";
  }
}
