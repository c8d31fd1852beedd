/**
 downloadBinaryChunkedCellular: an image fetched in ranges, each range in up to
 three requests that resume where the last one stopped. The k-th request is
 answered by serve(k, offset, end); the k-th write is taken when takes(k).
 */
module OtaDownload {
  import opened ByteStrings

  const CHUNK: nat := 0x4_0000
  const CHUNK_TRIES: nat := 3

  /** Status 0: no status line. Each part read goes to the writer on its own. */
  datatype Reply = Reply(status: nat, parts: seq<Bytes>)

  function Flat(parts: seq<Bytes>): Bytes {
    if parts == [] then [] else Flat(parts[..|parts| - 1]) + parts[|parts| - 1]
  }

  lemma {:induction false} FlatPrefix(parts: seq<Bytes>, k: nat)
    requires k <= |parts|
    ensures Flat(parts[..k]) <= Flat(parts)
    decreases |parts|
  {
    if k < |parts| {
      var rest := parts[..|parts| - 1];
      FlatPrefix(rest, k);
      assert rest[..k] == parts[..k];
    } else {
      assert parts[..k] == parts;
    }
  }

  /** The body is the image from this byte on, as far as it is asked for. */
  predicate Agrees(body: Bytes, image: Bytes, from: nat, end: nat) {
    forall j :: 0 <= j < |body| && from + j <= end ==> from + j < |image| && body[j] == image[from + j]
  }

  /** A server that answers ranges correctly. Replies may be short, long or refusals. */
  predicate Serves(r: Reply, image: Bytes, offset: nat, end: nat) {
    && (r.status == 206 ==> Agrees(Flat(r.parts), image, offset, end))
    && (r.status == 200 ==> Agrees(Flat(r.parts), image, 0, end))
  }

  predicate Accepted(status: nat, whole: bool) { status == 206 || (status == 200 && whole) }

  /** The reply as the counting callback lets it through to the writer. */
  method Receive(r: Reply, room: nat, whole: bool, takes: nat -> bool, calls: nat) returns (got: Bytes, calls': nat)
    ensures got <= Flat(r.parts) && |got| <= room && calls <= calls'
    ensures !Accepted(r.status, whole) ==> got == []
    ensures Accepted(r.status, whole) && (forall k :: calls <= k < calls' ==> takes(k)) ==>
              |got| == room || got == Flat(r.parts)
  {
    got, calls' := [], calls;
    for k := 0 to |r.parts|
      invariant got == Flat(r.parts[..k]) && |got| <= room && calls <= calls'
      invariant !Accepted(r.status, whole) ==> got == []
    {
      FlatPrefix(r.parts, k);
      FlatPrefix(r.parts, k + 1);
      assert r.parts[..k + 1][..k] == r.parts[..k];
      if !Accepted(r.status, whole) { return; }
      var d := r.parts[k];
      var left := room - |got|;
      var over := |d| > left;
      if over { d := d[..left]; }
      if d != [] {
        calls' := calls' + 1;
        if !takes(calls' - 1) { return; }
      }
      got := got + d;
      if over { return; }
    }
    assert r.parts[..|r.parts|] == r.parts;
  }

  /** Requests for one range until it is complete, refused or out of tries. */
  method FetchRange(
    serve: (nat, nat, nat) -> Reply, takes: nat -> bool, ghost image: Bytes, expectedSize: nat,
    offset: nat, end: nat, requests: nat, calls: nat)
    returns (got: Bytes, done: bool, requests': nat, calls': nat)
    requires offset <= end < expectedSize
    requires forall k, o, e :: Serves(serve(k, o, e), image, o, e)
    ensures |got| <= end + 1 - offset
    ensures got != [] ==> offset + |got| <= |image| && got == image[offset..offset + |got|]
    ensures done <==> |got| == end + 1 - offset
    ensures requests <= requests' <= requests + CHUNK_TRIES && calls <= calls'
    ensures Persistent(serve, expectedSize) && (forall k :: takes(k)) ==> done
  {
    got, requests', calls' := [], requests, calls;
    var attempt := 1;
    while attempt <= CHUNK_TRIES
      invariant 1 <= attempt <= CHUNK_TRIES + 1 && requests' == requests + attempt - 1 && calls <= calls'
      invariant |got| < end + 1 - offset
      invariant got != [] ==> offset + |got| <= |image| && got == image[offset..offset + |got|]
      invariant Persistent(serve, expectedSize) && (forall k :: takes(k)) ==>
                  forall k :: requests <= k < requests' ==> !Fills(serve, k, expectedSize)
    {
      var from := offset + |got|;
      var whole := from == 0 && end == expectedSize - 1;
      var reply := serve(requests', from, end);
      requests' := requests' + 1;
      assert Serves(reply, image, from, end);
      var part;
      part, calls' := Receive(reply, end + 1 - from, whole, takes, calls');
      Extend(reply, image, offset, got, part, end, whole);
      got := got + part;
      assert Fills(serve, requests' - 1, expectedSize) ==> Full(reply, from, end, expectedSize);
      if |got| == end + 1 - offset { return got, true, requests', calls'; }
      assert Persistent(serve, expectedSize) ==> Usable(reply, from, end, expectedSize);
      if reply.status != 0 && !Accepted(reply.status, whole) { return got, false, requests', calls'; }
      attempt := attempt + 1;
    }
    assert Persistent(serve, expectedSize) ==>
             Fills(serve, requests, expectedSize) || Fills(serve, requests + 1, expectedSize)
             || Fills(serve, requests + 2, expectedSize);
    done := false;
  }

  /** A reply that fills the range: partial content, or the whole image where the range is all of it. */
  predicate Full(r: Reply, offset: nat, end: nat, size: nat) {
    && (r.status == 206 || (r.status == 200 && offset == 0 && end + 1 == size))
    && |Flat(r.parts)| >= end + 1 - offset
  }

  /** A reply that breaks off, or fills its range. */
  predicate Usable(r: Reply, offset: nat, end: nat, size: nat) {
    r.status == 0 || r.status == 206 || (r.status == 200 && offset == 0 && end + 1 == size)
  }

  /** No reply is a refusal, and of any three in a row one fills its range. */
  ghost predicate Persistent(serve: (nat, nat, nat) -> Reply, size: nat) {
    && (forall k, o, e :: o <= e ==> Usable(serve(k, o, e), o, e, size))
    && forall k: nat :: Fills(serve, k, size) || Fills(serve, k + 1, size) || Fills(serve, k + 2, size)
  }

  ghost predicate Fills(serve: (nat, nat, nat) -> Reply, k: nat, size: nat) {
    forall o, e :: o <= e ==> Full(serve(k, o, e), o, e, size)
  }

  /** What a reply adds continues the image. */
  lemma {:induction false} Extend(r: Reply, image: Bytes, offset: nat, got: Bytes, part: Bytes, end: nat, whole: bool)
    requires Serves(r, image, offset + |got|, end) && (whole ==> offset + |got| == 0)
    requires part <= Flat(r.parts) && offset + |got| + |part| <= end + 1
    requires part != [] ==> Accepted(r.status, whole)
    requires got != [] ==> offset + |got| <= |image| && got == image[offset..offset + |got|]
    ensures var all := got + part;
            all != [] ==> offset + |all| <= |image| && all == image[offset..offset + |all|]
  {
    var from := offset + |got|;
    forall j | 0 <= j < |part| ensures from + j < |image| && part[j] == image[from + j] {
      assert part[j] == Flat(r.parts)[j];
    }
    if part != [] {
      var j := |part| - 1;
      assert part[j] == Flat(r.parts)[j] && from + j < |image|;
    }
  }

  /** True exactly when the whole image went to the writer; what went is always a prefix of it. */
  method Download(serve: (nat, nat, nat) -> Reply, takes: nat -> bool, ghost image: Bytes, expectedSize: nat)
    returns (ok: bool, written: Bytes, total: nat, requests: nat)
    requires forall k, o, e :: Serves(serve(k, o, e), image, o, e)
    ensures |written| <= expectedSize && written <= image
    ensures ok <==> expectedSize > 0 && |written| == expectedSize
    ensures total <= |written| && (ok ==> total == expectedSize) && (total < expectedSize ==> total % CHUNK == 0)
    ensures requests <= 3 * ((expectedSize + 262143) / 262144)
    ensures expectedSize > 0 && Persistent(serve, expectedSize) && (forall k :: takes(k)) ==> ok
  {
    ok, written, total, requests := false, [], 0, 0;
    if expectedSize == 0 { return; }
    var offset, calls := 0, 0;
    ghost var rounds := 0;
    while offset < expectedSize
      invariant offset <= expectedSize && written <= image && |written| == offset == total
                && requests <= CHUNK_TRIES * rounds
      invariant offset < expectedSize ==> offset == CHUNK * rounds
      invariant offset == expectedSize ==> rounds == (expectedSize + CHUNK - 1) / CHUNK
    {
      var end := if offset + CHUNK - 1 < expectedSize - 1 then offset + CHUNK - 1 else expectedSize - 1;
      var got, done;
      got, done, requests, calls := FetchRange(serve, takes, image, expectedSize, offset, end, requests, calls);
      if got != [] { assert image[..offset] + image[offset..offset + |got|] == image[..offset + |got|]; }
      written := written + got;
      rounds := rounds + 1;
      if !done {
        assert rounds <= (expectedSize + CHUNK - 1) / CHUNK;
        return;
      }
      offset := end + 1;
      total := offset;
    }
    ok := true;
  }
}
