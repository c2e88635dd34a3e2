/** What a response puts on the wire, in order, and what a client reads from it. */
module GzipWire {
  type Byte = b: int | 0 <= b < 256

  type Bytes = seq<Byte>

  /** The header fields the writer reads or sets; rest stands for all others. */
  datatype Headers = Headers(contentType: string, contentEncoding: string, contentRange: string, contentLength: string,
    vary: seq<string>, rest: nat)

  /** Coded is a stretch of gzip output that decodes to data; Trailer ends the gzip stream. */
  datatype Event =
    | Informational(status: int)
    | Head(status: int, headers: Headers)
    | Plain(data: Bytes)
    | Coded(data: Bytes)
    | Trailer
    | Flushed

  datatype Body = NoBody | PlainBody | CodedBody | CompleteBody

  datatype Phase = BeforeHead | Sent(status: int, headers: Headers, body: Body) | Broken

  function Next(p: Phase, e: Event): Phase {
    match (p, e)
    case (_, Flushed) => p
    case (BeforeHead, Informational(_)) => BeforeHead
    case (BeforeHead, Head(status, headers)) => Sent(status, headers, NoBody)
    case (Sent(status, headers, body), Plain(_)) => if body == NoBody || body == PlainBody then
      Sent(status, headers, PlainBody) else Broken
    case (Sent(status, headers, body), Coded(_)) => if body == NoBody || body == CodedBody then
      Sent(status, headers, CodedBody) else Broken
    case (Sent(status, headers, body), Trailer) => if body == NoBody || body == CodedBody then
      Sent(status, headers, CompleteBody) else Broken
    case _ => Broken
  }

  /** What a client makes of the events; Broken when they are no response. */
  function PhaseOf(wire: seq<Event>): Phase {
    if wire == [] then BeforeHead else Next(PhaseOf(wire[..|wire| - 1]), wire[|wire| - 1])
  }

  function DataOf(e: Event): Bytes {
    match e
    case Plain(data) => data
    case Coded(data) => data
    case _ => []
  }

  /** The body the client has after decoding. */
  function Decoded(wire: seq<Event>): Bytes {
    if wire == [] then [] else Decoded(wire[..|wire| - 1]) + DataOf(wire[|wire| - 1])
  }

  lemma Appended(wire: seq<Event>, e: Event)
    ensures PhaseOf(wire + [e]) == Next(PhaseOf(wire), e)
    ensures Decoded(wire + [e]) == Decoded(wire) + DataOf(e)
  {
    assert (wire + [e])[..|wire|] == wire;
  }

  predicate IsBody(e: Event) { e.Plain? || e.Coded? || e.Trailer? }

  lemma {:induction false} PhaseShape(wire: seq<Event>)
    ensures PhaseOf(wire).BeforeHead? ==> forall i :: 0 <= i < |wire| ==> !wire[i].Head? && !IsBody(wire[i])
    ensures PhaseOf(wire).Sent? ==> exists h ::
      0 <= h < |wire| && HeadAt(wire, h, PhaseOf(wire).status, PhaseOf(wire).headers)
  {
    if wire != [] {
      var n := |wire| - 1;
      var p := PhaseOf(wire[..n]);
      PhaseShape(wire[..n]);
      assert forall i :: 0 <= i < n ==> wire[..n][i] == wire[i];
      if PhaseOf(wire).Sent? {
        if p.Sent? {
          var h :| 0 <= h < n && HeadAt(wire[..n], h, p.status, p.headers);
          assert HeadAt(wire, h, p.status, p.headers);
        } else {
          assert HeadAt(wire, n, wire[n].status, wire[n].headers);
        }
      }
    }
  }

  /** The one final head stands at h: nothing of the body is before it, nothing informational after. */
  predicate HeadAt(wire: seq<Event>, h: nat, status: int, headers: Headers)
    requires h < |wire|
  {
    && wire[h] == Head(status, headers)
    && (forall i :: 0 <= i < h ==> !wire[i].Head? && !IsBody(wire[i]))
    && (forall i :: h < i < |wire| ==> !wire[i].Head? && !wire[i].Informational?)
  }

  /** An unbroken wire carries at most one final head, and it comes before any byte of the body. */
  lemma HeadOnceFirst(wire: seq<Event>, i: nat, j: nat)
    requires PhaseOf(wire) != Broken && i < |wire| && j < |wire|
    ensures wire[i].Head? && wire[j].Head? ==> i == j
    ensures wire[i].Head? && IsBody(wire[j]) ==> i < j
    ensures IsBody(wire[j]) ==> PhaseOf(wire).Sent?
  {
    PhaseShape(wire);
    if PhaseOf(wire).Sent? {
      var p := PhaseOf(wire);
      var h :| 0 <= h < |wire| && HeadAt(wire, h, p.status, p.headers);
    }
  }

  /** Coded and uncoded bytes never mix. */
  lemma {:induction false} OneCoding(wire: seq<Event>, i: nat)
    requires PhaseOf(wire) != Broken && i < |wire| && IsBody(wire[i])
    ensures PhaseOf(wire).Sent? && PhaseOf(wire).body != NoBody && (wire[i].Plain? <==> PhaseOf(wire).body == PlainBody)
  {
    var n := |wire| - 1;
    if i < n {
      OneCoding(wire[..n], i);
    }
  }
}
