/** The response writer that buffers a compressible body until it is worth compressing. */
module GzipWriter {
  import opened GzipWire

  const MIN_BYTES := 1024
  const COMPRESSIBLE_TYPES := {"application/json", "application/manifest+json", "application/javascript",
      "text/javascript", "text/css", "text/html", "image/svg+xml"}

  datatype Mode = Undecided | Passthrough | Buffering | Compressing

  /** What the writer asks of parsers that are not modelled: the media type of a content type
      in lower case, the size a length field states, and the type sniffed from a body. */
  datatype Parsers = Parsers(mediaType: string -> Option<string>, size: string -> Option<int>, detect: Bytes -> string)

  datatype Option<T> = None | Some(value: T)

  predicate Compressible(parse: Parsers, h: Headers) {
    h.contentEncoding == "" && h.contentRange == "" && match parse.mediaType(h.contentType)
      case None => false
      case Some(mediaType) => mediaType in COMPRESSIBLE_TYPES
  }

  predicate Eligible(parse: Parsers, status: int, h: Headers) {
    && status >= 200 && status !in {204, 206, 304}
    && (h.contentLength == "" || match parse.size(h.contentLength)
      case None => true
      case Some(size) => size >= MIN_BYTES)
  }

  function Varied(parse: Parsers, h: Headers): Headers {
    if Compressible(parse, h) then h.(vary := h.vary + ["Accept-Encoding"]) else h
  }

  /** The head a client gets for what the handler declared. */
  function HeadFor(parse: Parsers, declared: Headers, coded: bool): Headers {
    if coded then Varied(parse, declared).(contentLength := "", contentEncoding := "gzip") else Varied(parse, declared)
  }

  /** What Write does first with a response that has no content type yet. */
  function Typed(parse: Parsers, h: Headers, data: Bytes): Headers {
    if h.contentType == "" then h.(contentType := parse.detect(data)) else h
  }

  class GzipResponseWriter {
    const parse: Parsers
    const acceptsGzip: bool
    var header: Headers
    var mode: Mode
    var status: int
    var buffer: Bytes
    var held: Bytes                // what the encoder took and has not let out
    var wire: seq<Event>
    ghost var written: Bytes       // all that the handler wrote
    ghost var flushed: bool        // whether it flushed
    ghost var declared: Headers    // the handler's header when the mode was decided

    /** The state between any two calls of the handler. */
    ghost predicate Valid()
      reads this
    {
      match mode
      case Undecided => PhaseOf(wire) == BeforeHead && written == [] && buffer == [] && held == [] && !flushed
      case Buffering =>
        && PhaseOf(wire) == BeforeHead && Decoded(wire) == [] && written == buffer && |buffer| < MIN_BYTES && held == []
        && !flushed && acceptsGzip && Compressible(parse, declared) && Eligible(parse, status, Varied(parse, declared))
        && header == Varied(parse, declared)
      case Compressing =>
        && PhaseOf(wire).Sent? && PhaseOf(wire).status == status
        && PhaseOf(wire).headers == HeadFor(parse, declared, true)
        && PhaseOf(wire).body in {NoBody, CodedBody} && Decoded(wire) + held == written && buffer == []
        && (|written| >= MIN_BYTES || flushed)
        && acceptsGzip && Compressible(parse, declared) && Eligible(parse, status, Varied(parse, declared))
      case Passthrough =>
        && PhaseOf(wire).Sent? && PhaseOf(wire).status == status
        && PhaseOf(wire).headers == HeadFor(parse, declared, false)
        && PhaseOf(wire).body in {NoBody, PlainBody} && Decoded(wire) == written && buffer == [] && held == []
        && !(acceptsGzip && Compressible(parse, declared) && Eligible(parse, status, Varied(parse, declared)))
    }

    constructor (parse: Parsers, acceptsGzip: bool, header: Headers)
      ensures Valid() && mode == Undecided && wire == [] && this.header == header && this.parse == parse
        && this.acceptsGzip == acceptsGzip && !flushed
    {
      this.parse, this.acceptsGzip, this.header := parse, acceptsGzip, header;
      mode, status, buffer, held, wire, written, declared := Undecided, 0, [], [], [], [], header;
      flushed := false;
    }

    /** The handler may set header fields until it decides the head. */
    method SetHeader(h: Headers)
      requires Valid() && mode == Undecided
      modifies this`header
      ensures Valid() && header == h
    {
      header := h;
    }

    /** One event more on the wire. */
    method Emit(e: Event)
      modifies this`wire
      ensures wire == old(wire) + [e] && PhaseOf(wire) == Next(PhaseOf(old(wire)), e)
        && Decoded(wire) == Decoded(old(wire)) + DataOf(e)
    {
      Appended(wire, e);
      wire := wire + [e];
    }

    method WriteHeader(code: int)
      requires Valid()
      modifies this
      ensures Valid() && written == old(written) && flushed == old(flushed)
      ensures old(mode) != Undecided || 100 <= code < 200 ==>
        mode == old(mode) && header == old(header) && declared == old(declared) && status == old(status)
      ensures old(mode) != Undecided ==> wire == old(wire)
      ensures old(mode) == Undecided && 100 <= code < 200 ==> wire == old(wire) + [Informational(code)]
      ensures old(mode) == Undecided && !(100 <= code < 200) ==>
        mode != Undecided && status == code && declared == old(header)
      ensures mode == Buffering ==> wire == old(wire)
      ensures mode == Compressing ==> old(mode) == Compressing
      ensures old(wire) <= wire
    {
      if mode != Undecided {
        return;
      }
      if 100 <= code < 200 {
        Emit(Informational(code));
        return;
      }
      NoBodyYet(wire);
      status, declared := code, header;
      if Compressible(parse, header) {
        header := header.(vary := header.vary + ["Accept-Encoding"]);
        if acceptsGzip && Eligible(parse, code, header) {
          mode := Buffering;
          return;
        }
      }
      mode := Passthrough;
      Emit(Head(code, header));
    }

    /** emit is how much of what it holds the encoder lets out. */
    method Encode(data: Bytes, emit: nat)
      requires Valid() && mode == Compressing
      modifies this`held, this`wire, this`written
      ensures Valid() && written == old(written) + data && old(wire) <= wire
    {
      written := written + data;
      EncodeHeld(data, emit);
    }

    method EncodeHeld(data: Bytes, emit: nat)
      requires PhaseOf(wire).Sent? && PhaseOf(wire).body in {NoBody, CodedBody}
      modifies this`held, this`wire
      ensures Decoded(wire) + held == Decoded(old(wire)) + old(held) + data && old(wire) <= wire
      ensures PhaseOf(wire).Sent? && PhaseOf(wire).body in {NoBody, CodedBody}
      ensures PhaseOf(wire).status == PhaseOf(old(wire)).status && PhaseOf(wire).headers == PhaseOf(old(wire)).headers
      ensures emit >= |old(held)| + |data| ==> held == []
    {
      hide PhaseOf, Decoded;
      var all := held + data;
      var n := if emit < |all| then emit else |all|;
      SplitHeld(Decoded(wire), held, data, n);
      held := all[n..];
      if n > 0 {
        Emit(Coded(all[..n]));
      }
    }

    method StartGzip(emit: nat)
      requires PhaseOf(wire) == BeforeHead && Decoded(wire) == [] && written == buffer && held == []
      requires acceptsGzip && Compressible(parse, declared) && Eligible(parse, status, Varied(parse, declared))
        && header == Varied(parse, declared)
      requires |written| >= MIN_BYTES || flushed
      modifies this
      ensures Valid() && mode == Compressing && written == old(written) && status == old(status)
        && declared == old(declared) && flushed == old(flushed)
      ensures old(wire) + [Head(status, HeadFor(parse, declared, true))] <= wire
    {
      hide PhaseOf, Decoded, Compressible, Eligible, Varied;
      header := header.(contentLength := "", contentEncoding := "gzip");
      Emit(Head(status, header));
      var buffered := buffer;
      mode, buffer := Compressing, [];
      if |buffered| > 0 {
        EncodeHeld(buffered, emit);
      }
    }

    method Write(data: Bytes, emit: nat)
      requires Valid()
      modifies this
      ensures Valid() && mode != Undecided && written == old(written) + data && old(wire) <= wire
      ensures flushed == old(flushed)
      ensures old(mode) != Undecided ==> status == old(status) && declared == old(declared)
      ensures old(mode) == Undecided ==> status == 200 && declared == Typed(parse, old(header), data)
      ensures mode == Buffering ==> wire == old(wire)
    {
      hide PhaseOf, Decoded, Compressible, Eligible, Varied;
      if mode == Undecided {
        if header.contentType == "" {
          header := header.(contentType := parse.detect(data));
        }
        WriteHeader(200);
      }
      if mode == Buffering {
        buffer := buffer + data;
        written := written + data;
        if |buffer| >= MIN_BYTES {
          StartGzip(emit);
        }
      } else if mode == Compressing {
        Encode(data, emit);
      } else {
        written := written + data;
        Emit(Plain(data));
      }
    }

    method Flush()
      requires Valid()
      modifies this
      ensures Valid() && mode in {Passthrough, Compressing} && written == old(written) && old(wire) <= wire && flushed
      ensures old(mode) != Undecided ==> status == old(status) && declared == old(declared)
      ensures old(mode) == Undecided ==> status == 200 && declared == old(header)
      ensures Decoded(wire) == written
    {
      hide PhaseOf, Decoded, Compressible, Eligible, Varied;
      if mode == Undecided {
        WriteHeader(200);
      }
      flushed := true;
      if mode == Buffering {
        StartGzip(|buffer|);
      }
      if mode == Compressing {
        EncodeHeld([], |held|);
      }
      Emit(Flushed);
    }

    /** ReadFrom: the rest of the source, in the pieces it comes in. */
    method ReadFrom(pieces: seq<Bytes>, emit: nat)
      requires Valid()
      modifies this
      ensures Valid() && written == old(written) + Joined(pieces) && old(wire) <= wire
      ensures flushed == old(flushed)
      ensures pieces == [] ==> wire == old(wire) && mode == old(mode) && header == old(header)
      ensures pieces != [] ==> mode != Undecided
      ensures old(mode) != Undecided ==> status == old(status) && declared == old(declared)
      ensures old(mode) == Undecided && pieces != [] ==>
        status == 200 && declared == Typed(parse, old(header), pieces[0])
    {
      hide PhaseOf, Decoded, Compressible, Eligible, Varied, Valid;
      var i := 0;
      while i < |pieces|
        invariant 0 <= i <= |pieces| && Valid() && old(wire) <= wire
        invariant written == old(written) + Joined(pieces[..i]) && flushed == old(flushed)
        invariant i == 0 ==>
          wire == old(wire) && mode == old(mode) && header == old(header) && status == old(status)
          && declared == old(declared)
        invariant i > 0 ==> mode != Undecided
        invariant old(mode) != Undecided ==> status == old(status) && declared == old(declared)
        invariant old(mode) == Undecided && i > 0 ==> status == 200 && declared == Typed(parse, old(header), pieces[0])
      {
        assert pieces[..i + 1][..i] == pieces[..i];
        Write(pieces[i], emit);
        i := i + 1;
      }
      assert pieces[..i] == pieces;
    }

    /** finish, after the handler returned. */
    method Finish()
      requires Valid()
      modifies this
      ensures Decoded(wire) == written == old(written) && old(wire) <= wire
      ensures mode == old(mode) && declared == old(declared) && status == old(status) && flushed == old(flushed)
      ensures mode == Undecided ==> wire == old(wire) && written == []
      ensures mode != Undecided ==>
        PhaseOf(wire).Sent? && PhaseOf(wire).status == status
        && PhaseOf(wire).headers == HeadFor(parse, declared, mode == Compressing)
      ensures mode != Undecided ==>
        (PhaseOf(wire).body == CompleteBody <==> mode == Compressing) && PhaseOf(wire).body != CodedBody
    {
      hide PhaseOf, Decoded, Compressible, Eligible, Varied;
      match mode
      case Buffering =>
        Emit(Head(status, header));
        if |buffer| > 0 {
          Emit(Plain(buffer));
        }
        buffer := [];
      case Compressing =>
        EncodeHeld([], |held|);
        Emit(Trailer);
      case Undecided =>
        NoBodyYet(wire);
      case Passthrough =>
    }
  }

  lemma SplitHeld(before: Bytes, held: Bytes, data: Bytes, n: nat)
    requires n <= |held + data|
    ensures before + (held + data)[..n] + (held + data)[n..] == before + held + data
    ensures n == 0 ==> (held + data)[n..] == held + data && before + (held + data) == before + held + data
  {
    assert (held + data)[..n] + (held + data)[n..] == held + data;
  }

  function Joined(pieces: seq<Bytes>): Bytes {
    if pieces == [] then [] else Joined(pieces[..|pieces| - 1]) + pieces[|pieces| - 1]
  }

  lemma {:induction false} NoBodyYet(wire: seq<Event>)
    requires PhaseOf(wire) == BeforeHead
    ensures Decoded(wire) == []
  {
    if wire != [] {
      NoBodyYet(wire[..|wire| - 1]);
    }
  }

  /** What the client's head says of the coding is what happened to the body: the writer set
      gzip, and removed the length, exactly when the body went through the encoder. */
  lemma CodingDeclared(parse: Parsers, declared: Headers, wire: seq<Event>, coded: bool)
    requires PhaseOf(wire).Sent? && PhaseOf(wire).headers == HeadFor(parse, declared, coded)
    requires PhaseOf(wire).body == CompleteBody <==> coded
    requires coded ==> Compressible(parse, declared)
    ensures PhaseOf(wire).headers.contentEncoding != declared.contentEncoding <==> PhaseOf(wire).body == CompleteBody
    ensures PhaseOf(wire).body == CompleteBody ==>
      PhaseOf(wire).headers.contentEncoding == "gzip" && PhaseOf(wire).headers.contentLength == ""
      && "Accept-Encoding" in PhaseOf(wire).headers.vary
    ensures forall i :: 0 <= i < |wire| && wire[i].Coded? ==>
      PhaseOf(wire).body == CompleteBody || PhaseOf(wire).body == CodedBody
  {
    forall i | 0 <= i < |wire| && wire[i].Coded?
      ensures PhaseOf(wire).body == CompleteBody || PhaseOf(wire).body == CodedBody
    {
      OneCoding(wire, i);
    }
  }

  // ----- whole responses -----

  /** What a handler does: header fields it sets before it decides, and the writer's calls. */
  datatype Call =
    | Fields(h: Headers)
    | Status(code: int)
    | Body(data: Bytes, emit: nat)
    | From(pieces: seq<Bytes>, emit: nat)
    | Flushes

  function WrittenBy(calls: seq<Call>): Bytes {
    if calls == [] then [] else WrittenBy(calls[..|calls| - 1]) + match calls[|calls| - 1]
      case Body(data, _) => data
      case From(pieces, _) => Joined(pieces)
      case _ => []
  }

  /** The head the handler asked for: open with the fields set so far, or decided. */
  datatype Decision = Open(headers: Headers) | Decided(status: int, headers: Headers)

  /** The first call that decides takes the status and the fields of that moment. */
  function DecisionOf(parse: Parsers, header: Headers, calls: seq<Call>): Decision {
    if calls == [] then Open(header)
    else
      var before := DecisionOf(parse, header, calls[..|calls| - 1]);
      if before.Decided? then before
      else match calls[|calls| - 1]
        case Fields(h) => Open(h)
        case Status(code) => if 100 <= code < 200 then before else Decided(code, before.headers)
        case Body(data, _) => Decided(200, Typed(parse, before.headers, data))
        case From(pieces, _) => if pieces == [] then before else Decided(200, Typed(parse, before.headers, pieces[0]))
        case Flushes => Decided(200, before.headers)
  }

  /** Whether a call decides the head: an informational status and an empty source do not. */
  predicate Decides(call: Call) {
    match call
    case Fields(_) => false
    case Status(code) => code < 100 || code >= 200
    case From(pieces, _) => pieces != []
    case _ => true
  }

  /** The fields set last. */
  function LastFields(header: Headers, calls: seq<Call>): Headers {
    if calls == [] then header
    else if calls[|calls| - 1].Fields? then calls[|calls| - 1].h
    else LastFields(header, calls[..|calls| - 1])
  }

  lemma {:induction false} OpenUntil(parse: Parsers, header: Headers, calls: seq<Call>)
    requires forall i :: 0 <= i < |calls| ==> !Decides(calls[i])
    ensures DecisionOf(parse, header, calls) == Open(LastFields(header, calls))
  {
    if calls != [] {
      OpenUntil(parse, header, calls[..|calls| - 1]);
    }
  }

  /** The first deciding call takes the fields set last before it: its own status, or 200, and
      a sniffed content type only if it writes and none was set. */
  lemma {:induction false} FirstDecides(parse: Parsers, header: Headers, calls: seq<Call>, i: nat)
    requires i < |calls| && Decides(calls[i]) && forall j :: 0 <= j < i ==> !Decides(calls[j])
    ensures var h := LastFields(header, calls[..i]);
            var data := match calls[i]
              case Body(data, _) => Some(data)
              case From(pieces, _) => Some(pieces[0])
              case _ => None;
            DecisionOf(parse, header, calls) == Decided(
              if calls[i].Status? then calls[i].code else 200,
              if data.Some? && h.contentType == "" then h.(contentType := parse.detect(data.value)) else h)
    decreases |calls|
  {
    var n := |calls| - 1;
    if i == n {
      OpenUntil(parse, header, calls[..n]);
    } else {
      assert calls[..n][..i] == calls[..i];
      FirstDecides(parse, header, calls[..n], i);
    }
  }

  /** A whole text of one of seven types, that nobody has coded yet, could be sent coded. */
  predicate IsText(parse: Parsers, h: Headers) {
    && h.contentEncoding == "" == h.contentRange && parse.mediaType(h.contentType).Some?
    && parse.mediaType(h.contentType).value in {"text/html", "text/css", "text/javascript", "application/javascript",
         "application/json", "application/manifest+json", "image/svg+xml"}
  }

  /** A status with a body, and no stated length below the least. */
  predicate HasBody(parse: Parsers, status: int, h: Headers) {
    && !(status < 200 || status == 204 || status == 206 || status == 304)
    && !(h.contentLength != "" && parse.size(h.contentLength).Some? && parse.size(h.contentLength).value < 1024)
  }

  /** A response as the client gets it, from what the handler declared and wrote.  The body is
      coded if and only if the client takes it so, it is a text with a body, and 1024 bytes
      were written or a flush could not wait for them; the head says so, and changes nothing else. */
  ghost predicate Faithful(parse: Parsers, acceptsGzip: bool, status: int, declared: Headers, flushes: bool,
      wire: seq<Event>)
  {
    && PhaseOf(wire).Sent? && PhaseOf(wire).status == status && PhaseOf(wire).body != CodedBody
    && var coded := PhaseOf(wire).body == CompleteBody;
    && (coded <==> acceptsGzip && IsText(parse, declared) && HasBody(parse, status, declared)
                   && (|Decoded(wire)| >= 1024 || flushes))
    && PhaseOf(wire).headers == declared.(
         vary := declared.vary + (if IsText(parse, declared) then ["Accept-Encoding"] else []),
         contentEncoding := if coded then "gzip" else declared.contentEncoding,
         contentLength := if coded then "" else declared.contentLength)
  }

  lemma MeetsFaithful(parse: Parsers, acceptsGzip: bool, status: int, declared: Headers, flushes: bool,
      wire: seq<Event>)
    requires PhaseOf(wire).Sent? && PhaseOf(wire).status == status && PhaseOf(wire).body != CodedBody
    requires var coded := PhaseOf(wire).body == CompleteBody;
             && PhaseOf(wire).headers == HeadFor(parse, declared, coded)
             && (coded <==> acceptsGzip && Compressible(parse, declared)
                            && Eligible(parse, status, Varied(parse, declared))
                            && (|Decoded(wire)| >= MIN_BYTES || flushes))
    ensures Faithful(parse, acceptsGzip, status, declared, flushes, wire)
  {
    assert Compressible(parse, declared) <==> IsText(parse, declared);
  }

  /** Whether one of the calls flushes. */
  predicate SomeFlush(calls: seq<Call>) {
    exists i :: 0 <= i < |calls| && calls[i].Flushes?
  }

  /** The writer carries the decision of the calls made so far. */
  ghost predicate Carries(w: GzipResponseWriter, d: Decision)
    reads w
  {
    match d
    case Open(h) => w.mode == Undecided && w.header == h
    case Decided(status, h) => w.mode != Undecided && w.status == status && w.declared == h
  }

  method Do(w: GzipResponseWriter, call: Call, ghost before: Decision, ghost after: Decision)
    requires w.Valid() && Carries(w, before)
    requires after == if before.Decided? then before else match call
      case Fields(h) => Open(h)
      case Status(code) => if 100 <= code < 200 then before else Decided(code, before.headers)
      case Body(data, _) => Decided(200, Typed(w.parse, before.headers, data))
      case From(pieces, _) => if pieces == [] then before else Decided(200, Typed(w.parse, before.headers, pieces[0]))
      case Flushes => Decided(200, before.headers)
    modifies w
    ensures w.Valid() && Carries(w, after)
    ensures w.flushed <==> old(w.flushed) || call.Flushes?
    ensures w.written == old(w.written)
      + match call case Body(data, _) => data case From(pieces, _) => Joined(pieces) case _ => []
  {
    hide PhaseOf, Decoded, Compressible, Eligible, Varied, Joined, Typed;
    match call
    case Fields(h) =>
      if w.mode == Undecided {
        w.SetHeader(h);
      }
    case Status(code) =>
      w.WriteHeader(code);
    case Body(data, emit) =>
      w.Write(data, emit);
    case From(pieces, emit) =>
      w.ReadFrom(pieces, emit);
    case Flushes =>
      w.Flush();
  }

  /** Whatever the handler calls, the client decodes what was written, under one head: the one
      the first deciding call declared.  A handler that neither writes nor decides leaves the
      wire to the server. */
  method Serve(parse: Parsers, acceptsGzip: bool, header: Headers, calls: seq<Call>) returns (wire: seq<Event>)
    ensures Decoded(wire) == WrittenBy(calls)
    ensures match DecisionOf(parse, header, calls)
      case Open(_) => PhaseOf(wire) == BeforeHead && WrittenBy(calls) == []
      case Decided(status, declared) => Faithful(parse, acceptsGzip, status, declared, SomeFlush(calls), wire)
  {
    hide PhaseOf, Decoded, Compressible, Eligible, Varied, Joined, Typed, Carries, Faithful;
    var w := new GzipResponseWriter(parse, acceptsGzip, header);
    Starts(w, header);
    for i := 0 to |calls|
      invariant fresh(w) && w.parse == parse && w.acceptsGzip == acceptsGzip
      invariant w.Valid() && w.written == WrittenBy(calls[..i]) && Carries(w, DecisionOf(parse, header, calls[..i]))
      invariant w.flushed <==> SomeFlush(calls[..i])
    {
      assert calls[..i + 1][..i] == calls[..i];
      Do(w, calls[i], DecisionOf(parse, header, calls[..i]), DecisionOf(parse, header, calls[..i + 1]));
    }
    assert calls[..|calls|] == calls;
    Close(w, DecisionOf(parse, header, calls));
    wire := w.wire;
  }

  lemma Starts(w: GzipResponseWriter, header: Headers)
    requires w.mode == Undecided && w.header == header
    ensures Carries(w, Open(header))
  {
  }

  method Close(w: GzipResponseWriter, ghost d: Decision)
    requires w.Valid() && Carries(w, d)
    modifies w
    ensures Decoded(w.wire) == old(w.written)
    ensures match d
      case Open(_) => PhaseOf(w.wire) == BeforeHead && old(w.written) == []
      case Decided(status, declared) => Faithful(w.parse, w.acceptsGzip, status, declared, old(w.flushed), w.wire)
  {
    hide PhaseOf, Decoded, Compressible, Eligible, Varied, Faithful, HeadFor;
    if w.mode != Undecided {
      CodedIff(w);
    }
    w.Finish();
    if d.Decided? {
      MeetsFaithful(w.parse, w.acceptsGzip, d.status, d.headers, w.flushed, w.wire);
    }
  }

  lemma CodedIff(w: GzipResponseWriter)
    requires w.Valid() && w.mode != Undecided
    ensures w.mode == Compressing <==>
      && w.acceptsGzip && Compressible(w.parse, w.declared) && Eligible(w.parse, w.status, Varied(w.parse, w.declared))
      && (|w.written| >= MIN_BYTES || w.flushed)
  {
    hide PhaseOf, Decoded, Compressible, Eligible, Varied;
  }
}
