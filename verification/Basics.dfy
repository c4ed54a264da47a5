/** Octets, text and the few sequence facts that every other module uses. */
module Basics {
  datatype Option<+T> = None | Some(value: T)

  newtype byte = x: int | 0 <= x < 0x100

  /** The text of a remote host.  The text that inet_ntop prints is represented by the
      address bytes it is printed from. */
  datatype HostText = Name(text: string) | Ntop4(address: seq<byte>) | Ntop6(address: seq<byte>)
  {
    predicate Empty() { Name? && text == "" }
  }

  datatype Endpoint = Endpoint(host: HostText, service: string)

  /** The size of every read and write buffer of a stream. */
  const MAX_BUFFER_SIZE: nat := 0x4000

  /** Bytes seen as characters, the way the HTTP parser reads a chunk. */
  function Text(b: seq<byte>): (s: string)
    ensures |s| == |b|
    ensures forall i :: 0 <= i < |b| ==> s[i] as int == b[i] as int
  {
    seq(|b|, i requires 0 <= i < |b| => b[i] as int as char)
  }

  predicate IsLatin(s: string) {
    forall i :: 0 <= i < |s| ==> s[i] as int < 0x100
  }

  /** The inverse of Text on eight-bit text. */
  function Octets(s: string): (b: seq<byte>)
    requires IsLatin(s)
    ensures |b| == |s|
    ensures Text(b) == s
  {
    var b := seq(|s|, i requires 0 <= i < |s| => s[i] as int as byte);
    assert Text(b) == s by {
      assert forall i :: 0 <= i < |s| ==> Text(b)[i] == s[i];
    }
    b
  }

  /** The buffer after source has been copied over its front. */
  function Overwrite(buffer: seq<byte>, source: seq<byte>): (r: seq<byte>)
    requires |source| <= |buffer|
    ensures |r| == |buffer|
    ensures r[..|source|] == source
  {
    source + buffer[|source|..]
  }

  lemma OverwriteKeepsRest(buffer: seq<byte>, source: seq<byte>)
    requires |source| <= |buffer|
    ensures Overwrite(buffer, source)[|source|..] == buffer[|source|..]
  {
  }

  /** Copies a chunk over the front of a buffer and leaves the rest of it alone. */
  method CopyToFront(source: seq<byte>, target: array<byte>)
    requires |source| <= target.Length
    modifies target
    ensures target[..] == Overwrite(old(target[..]), source)
    ensures target[|source|..] == old(target[|source|..])
  {
    ghost var before := target[..];
    for i := 0 to |source|
      invariant target[..] == Overwrite(before, source[..i])
    {
      target[i] := source[i];
      assert Overwrite(before, source[..i + 1]) == Overwrite(before, source[..i])[i := source[i]];
    }
    assert source[..|source|] == source;
    OverwriteKeepsRest(before, source);
    assert target[|source|..] == target[..][|source|..];
  }

  /** The bytes of a list of chunks, in order. */
  function Flatten(chunks: seq<seq<byte>>): seq<byte> {
    if chunks == [] then [] else Flatten(chunks[..|chunks| - 1]) + chunks[|chunks| - 1]
  }

  lemma FlattenSnoc(chunks: seq<seq<byte>>, chunk: seq<byte>)
    ensures Flatten(chunks + [chunk]) == Flatten(chunks) + chunk
  {
    assert (chunks + [chunk])[..|chunks|] == chunks;
  }

  lemma {:induction false} FlattenConcat(a: seq<seq<byte>>, b: seq<seq<byte>>)
    ensures Flatten(a + b) == Flatten(a) + Flatten(b)
    decreases |b|
  {
    if b == [] {
      assert a + b == a;
    } else {
      var init, last := b[..|b| - 1], b[|b| - 1];
      assert a + b == (a + init) + [last];
      FlattenSnoc(a + init, last);
      FlattenConcat(a, init);
    }
  }

  /** A prefix of the later chunks continues the earlier ones. */
  lemma PrefixAfter(chunks: seq<seq<byte>>, k: nat, part: seq<byte>, all: seq<byte>)
    requires k <= |chunks| && part <= Flatten(chunks[k..]) && Flatten(chunks) <= all
    ensures Flatten(chunks[..k]) + part <= all
  {
    FlattenConcat(chunks[..k], chunks[k..]);
    assert chunks[..k] + chunks[k..] == chunks;
  }
}
