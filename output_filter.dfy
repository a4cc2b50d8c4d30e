/**
 * The filter the execution service applies to every chunk of an attached
 * exec stream before handing it to the output writer: all occurrences of
 * the hijack-handshake header are removed by one left-to-right pass (a
 * global regular-expression replace), and the chunk is forwarded only when
 * something is left.
 */
module OutputFilter {
  import opened Wrappers

  /** The header Docker echoes on a hijacked exec stream. */
  const HijackHeader: string := "{\"stream\":true,\"stdin\":true,\"stdout\":true,\"stderr\":true,\"hijack\":true}"

  predicate StartsWith(s: string, p: string)
  {
    |p| <= |s| && s[..|p|] == p
  }

  /** The header occurs in `s` starting at position `k`. */
  predicate HeaderAt(s: string, k: int)
  {
    0 <= k <= |s| && StartsWith(s[k..], HijackHeader)
  }

  ghost predicate HasHeader(s: string)
  {
    exists k :: 0 <= k <= |s| && HeaderAt(s, k)
  }

  /** `chunk.replace(/…/g, "")`: scan from the left, dropping each match and resuming after it. */
  function StripHeaders(s: string): (r: string)
    ensures |r| <= |s|
  {
    if StartsWith(s, HijackHeader) then StripHeaders(s[|HijackHeader|..])
    else if s == [] then []
    else [s[0]] + StripHeaders(s[1..])
  }

  /** The filter only deletes: every character it keeps was in the chunk, as often. */
  lemma {:induction false} StripOnlyDeletes(s: string)
    ensures multiset(StripHeaders(s)) <= multiset(s)
  {
    if StartsWith(s, HijackHeader) {
      StripOnlyDeletes(s[|HijackHeader|..]);
      assert s == s[..|HijackHeader|] + s[|HijackHeader|..];
    } else if s != [] {
      StripOnlyDeletes(s[1..]);
      assert s == [s[0]] + s[1..];
    }
  }

  /** What the `data` handler passes to the output writer, if anything. */
  function ForwardedChunk(chunk: string): (r: Option<string>)
    ensures r.Some? <==> StripHeaders(chunk) != []
    ensures r.Some? ==> r.value == StripHeaders(chunk)
  {
    var output := StripHeaders(chunk);
    if |output| > 0 then Some(output) else None
  }

  lemma HeaderLength()
    ensures |HijackHeader| == 70
  {
  }

  /** A chunk loses characters exactly when it contains the header. */
  lemma {:induction false} StripShortensIffHeader(s: string)
    ensures |StripHeaders(s)| <= |s|
    ensures |StripHeaders(s)| < |s| <==> HasHeader(s)
  {
    HeaderLength();
    if StartsWith(s, HijackHeader) {
      StripShortensIffHeader(s[|HijackHeader|..]);
      assert HeaderAt(s, 0);
    } else if s != [] {
      StripShortensIffHeader(s[1..]);
      if HasHeader(s[1..]) {
        var k :| 0 <= k <= |s[1..]| && HeaderAt(s[1..], k);
        assert s[1..][k..] == s[k + 1..];
        assert HeaderAt(s, k + 1);
      }
      if HasHeader(s) {
        var k :| 0 <= k <= |s| && HeaderAt(s, k);
        assert k != 0;
        assert s[1..][k - 1..] == s[k..];
        assert HeaderAt(s[1..], k - 1);
      }
    } else {
      assert !HeaderAt(s, 0);
    }
  }

  /** A chunk without the header is forwarded verbatim, unless it is empty. */
  lemma HeaderFreeChunkUnchanged(s: string)
    requires !HasHeader(s)
    ensures StripHeaders(s) == s
    ensures ForwardedChunk(s) == if s == [] then None else Some(s)
  {
    StripShortensIffHeader(s);
    SameLengthMeansUnchanged(s);
  }

  /** The filter only ever deletes whole headers, so a chunk that keeps its length comes out unchanged. */
  lemma {:induction false} SameLengthMeansUnchanged(s: string)
    ensures |StripHeaders(s)| == |s| ==> StripHeaders(s) == s
  {
    HeaderLength();
    if StartsWith(s, HijackHeader) {
      StripShortensIffHeader(s[|HijackHeader|..]);
    } else if s != [] {
      SameLengthMeansUnchanged(s[1..]);
      StripShortensIffHeader(s[1..]);
    }
  }

  /** A chunk that is nothing but headers is dropped: the handshake never reaches the client. */
  lemma {:induction false} HeadersOnlyDropped(n: nat)
    ensures StripHeaders(Repeat(n)) == []
    ensures ForwardedChunk(Repeat(n)).None?
  {
    if n > 0 {
      LeadingHeaderIgnored(Repeat(n - 1));
      HeadersOnlyDropped(n - 1);
    }
  }

  function Repeat(n: nat): string
  {
    if n == 0 then [] else HijackHeader + Repeat(n - 1)
  }

  /** Removing a leading header does not change what is forwarded. */
  lemma LeadingHeaderIgnored(s: string)
    ensures StripHeaders(HijackHeader + s) == StripHeaders(s)
  {
    assert StartsWith(HijackHeader + s, HijackHeader);
    assert (HijackHeader + s)[|HijackHeader|..] == s;
  }

  /** A chunk shorter than the header always comes through whole. */
  lemma {:induction false} ShortUnchanged(s: string)
    requires |s| < |HijackHeader|
    ensures StripHeaders(s) == s
  {
    if s != [] {
      ShortUnchanged(s[1..]);
    }
  }
}
