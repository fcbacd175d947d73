/** The bytes that the provenance digest of a list of files is computed from. */
module EntriesDigest {
  import opened Common
  import opened ByteCodec

  const DIGEST_SIZE := 32

  /** The SHA-256 of a file's content, as the bytes the program feeds on. */
  type ContentDigest = d: seq<Byte> | |d| == DIGEST_SIZE witness seq(DIGEST_SIZE, i => 0)

  datatype Entry = Entry(name: seq<Byte>, size: nat, digest: ContentDigest)

  /** `to_bytes` raises outside these bounds. */
  predicate Encodable(e: Entry) {
    |e.name| < Power(4) && e.size < Power(8)
  }

  function Encoded(e: Entry): seq<Byte> {
    Big(|e.name|, 4) + e.name + Big(e.size, 8) + e.digest
  }

  function Stream(entries: seq<Entry>): seq<Byte> {
    if entries == [] then [] else Stream(entries[..|entries| - 1]) + Encoded(entries[|entries| - 1])
  }

  function StreamFrom(entries: seq<Entry>): seq<Byte> {
    if entries == [] then [] else Encoded(entries[0]) + StreamFrom(entries[1..])
  }

  /** A running hash: what matters is the bytes it was fed. */
  class Hash {
    ghost var fed: seq<Byte>

    constructor ()
      ensures fed == []
    {
      fed := [];
    }

    method Update(bytes: seq<Byte>)
      modifies this
      ensures fed == old(fed) + bytes
    {
      fed := fed + bytes;
    }
  }

  /** `_entries_digest`; ok is false where a length does not fit. */
  method FeedEntries(hash: Hash, entries: seq<Entry>) returns (ok: bool)
    requires hash.fed == []
    modifies hash
    ensures ok <==> forall e :: e in entries ==> Encodable(e)
    ensures ok ==> hash.fed == Stream(entries)
  {
    for k := 0 to |entries|
      invariant hash.fed == Stream(entries[..k])
      invariant forall e :: e in entries[..k] ==> Encodable(e)
    {
      var e := entries[k];
      assert entries[..k + 1][..k] == entries[..k];
      assert e in entries;
      if |e.name| >= Power(4) {
        return false;
      }
      hash.Update(Big(|e.name|, 4));
      hash.Update(e.name);
      if e.size >= Power(8) {
        return false;
      }
      hash.Update(Big(e.size, 8));
      hash.Update(e.digest);
      assert Stream(entries[..k]) + Encoded(e) == Stream(entries[..k]) + Big(|e.name|, 4) + e.name + Big(e.size, 8) + e.digest;
    }
    assert entries[..|entries|] == entries;
    ok := true;
  }

  lemma {:induction false} StreamsAgree(entries: seq<Entry>)
    ensures Stream(entries) == StreamFrom(entries)
  {
    if |entries| > 1 {
      var init, last := entries[..|entries| - 1], entries[|entries| - 1];
      StreamsAgree(init);
      StreamsAgree(entries[1..]);
      StreamsAgree(init[1..]);
      assert entries[1..][..|entries| - 2] == init[1..];
      assert Stream(entries[1..]) == Stream(init[1..]) + Encoded(last);
    } else if |entries| == 1 {
      assert entries[1..] == [] && entries[..0] == [];
    }
  }

  /** The first entry and what follows it can be read off the stream. */
  lemma FirstEntryIsDetermined(a: Entry, rest: seq<Byte>, b: Entry, rest': seq<Byte>)
    requires Encodable(a) && Encodable(b) && Encoded(a) + rest == Encoded(b) + rest'
    ensures a == b && rest == rest'
  {
    var s, t := Encoded(a) + rest, Encoded(b) + rest';
    assert s[..4] == Big(|a.name|, 4) && t[..4] == Big(|b.name|, 4);
    BigRoundTrip(|a.name|, 4);
    BigRoundTrip(|b.name|, 4);
    var n := |a.name|;
    assert s[4..4 + n] == a.name && t[4..4 + n] == b.name;
    assert s[4 + n..12 + n] == Big(a.size, 8) && t[4 + n..12 + n] == Big(b.size, 8);
    BigRoundTrip(a.size, 8);
    BigRoundTrip(b.size, 8);
    assert s[12 + n..44 + n] == a.digest && t[12 + n..44 + n] == b.digest;
    assert s[44 + n..] == rest && t[44 + n..] == rest';
  }

  /** Equal bytes come from equal lists: no name, size, digest or number of entries can be
      traded for another. */
  lemma {:induction false} StreamDeterminesEntries(a: seq<Entry>, b: seq<Entry>)
    requires forall e :: e in a ==> Encodable(e)
    requires forall e :: e in b ==> Encodable(e)
    requires Stream(a) == Stream(b)
    ensures a == b
  {
    StreamsAgree(a);
    StreamsAgree(b);
    if a == [] || b == [] {
      assert |StreamFrom(a)| == |StreamFrom(b)|;
    } else {
      FirstEntryIsDetermined(a[0], StreamFrom(a[1..]), b[0], StreamFrom(b[1..]));
      StreamsAgree(a[1..]);
      StreamsAgree(b[1..]);
      StreamDeterminesEntries(a[1..], b[1..]);
      assert a == [a[0]] + a[1..] && b == [b[0]] + b[1..];
    }
  }
}
