/** The retained body of a recording request, replayable to either destination. */
module Replay {
  import opened Common
  import opened Headers
  import opened Proxy

  datatype Frame = Data(bytes: string) | Trailers(fields: Fields)

  /** What a receiver ends up with. */
  datatype Payload = Payload(bytes: string, trailers: Option<Fields>)

  function Concat(chunks: seq<string>): (r: string) {
    if chunks == [] then "" else chunks[0] + Concat(chunks[1..])
  }

  /** The payload of a body that is read to its end. */
  function PayloadOf(body: Stream): (p: Payload) { Payload(Concat(body.data), body.trailers) }

  /** The payload carried by a sequence of frames; trailers come last. */
  function Received(frames: seq<Frame>): (p: Payload) {
    if frames == [] then Payload("", None)
    else match frames[0]
         case Data(bytes) => var rest := Received(frames[1..]); rest.(bytes := bytes + rest.bytes)
         case Trailers(fields) => Payload("", Some(fields))
  }

  /** Bytes are put together in the order in which they came. */
  lemma {:induction false} ConcatInOrder(a: seq<string>, b: seq<string>)
    ensures Concat(a + b) == Concat(a) + Concat(b)
    ensures forall x: string :: Concat([x]) == x
    decreases |a|
  {
    if a == [] {
      assert a + b == b;
    } else {
      ConcatInOrder(a[1..], b);
      assert (a + b)[1..] == a[1..] + b;
    }
    forall x: string ensures Concat([x]) == x {
      assert [x][1..] == [];
    }
  }

  function DataFrames(chunks: seq<string>): (frames: seq<Frame>)
    ensures |frames| == |chunks| && forall i | 0 <= i < |chunks| :: frames[i] == Data(chunks[i])
  {
    seq(|chunks|, i requires 0 <= i < |chunks| => Data(chunks[i]))
  }

  /** A receiver gets the data frames in order and the trailers after them. */
  lemma {:induction false} ReceivedInOrder(chunks: seq<string>, trailers: Option<Fields>)
    ensures Received(DataFrames(chunks) + (if trailers.Some? then [Trailers(trailers.value)] else []))
         == Payload(Concat(chunks), trailers)
    decreases |chunks|
  {
    var tail := if trailers.Some? then [Trailers(trailers.value)] else [];
    var frames := DataFrames(chunks) + tail;
    if chunks == [] {
      assert frames == tail;
    } else {
      ReceivedInOrder(chunks[1..], trailers);
      assert frames[1..] == DataFrames(chunks[1..]) + tail;
    }
  }

  class ReplayBody {
    var bytes: Option<string>
    var trailers: Option<Fields>

    /** `replay_body` never retains an empty chunk. */
    ghost predicate Valid()
      reads this
    {
      bytes.Some? ==> bytes.value != ""
    }

    /** The frames still to be emitted. */
    ghost function Remaining(): (frames: seq<Frame>)
      reads this
    {
      (if bytes.Some? then [Data(bytes.value)] else []) + (if trailers.Some? then [Trailers(trailers.value)] else [])
    }

    constructor (bytes: string, trailers: Option<Fields>)
      ensures Valid() && Received(Remaining()) == Payload(bytes, trailers)
    {
      this.bytes := if bytes != "" then Some(bytes) else None;
      this.trailers := trailers;
    }

    /** `poll_frame`: emits what is left in order, then ends. */
    method PollFrame() returns (frame: Option<Frame>)
      requires Valid()
      modifies this
      ensures Valid()
      ensures if old(Remaining()) == [] then frame == None && Remaining() == []
              else frame == Some(old(Remaining())[0]) && Remaining() == old(Remaining())[1..]
    {
      if bytes.Some? {
        var taken := bytes.value;
        bytes := None;
        if taken != "" {
          return Some(Data(taken));
        }
      }
      if trailers.Some? {
        var taken := trailers.value;
        trailers := None;
        return Some(Trailers(taken));
      }
      return None;
    }

    /** `is_end_stream`: true exactly when the next poll yields no frame. */
    predicate IsEndStream()
      requires Valid()
      reads this
      ensures IsEndStream() <==> Remaining() == []
    {
      bytes.None? && trailers.None?
    }

    /** `size_hint`: an exact length is promised only when it is the whole remaining body. */
    function SizeHint(): (exact: Option<nat>)
      requires Valid()
      reads this
      ensures exact.Some? ==> exact.value == |Received(Remaining()).bytes| && Received(Remaining()).trailers == None
      ensures exact.None? <==> Received(Remaining()).trailers.Some?
      ensures IsEndStream() ==> exact == Some(0)
    {
      if trailers.None? then Some(if bytes.Some? then |bytes.value| else 0) else None
    }
  }

  /** Collecting a body and polling its replay to the end gives back the same payload. */
  method Deliver(body: Stream) returns (payload: Payload)
    requires !body.failed
    ensures payload == PayloadOf(body)
  {
    var bytes := "";
    for i := 0 to |body.data|
      invariant bytes + Concat(body.data[i..]) == Concat(body.data)
    {
      assert body.data[i..][0] == body.data[i] && body.data[i..][1..] == body.data[i + 1..];
      bytes := bytes + body.data[i];
    }
    var replay := new ReplayBody(bytes, body.trailers);
    payload := Payload("", None);
    ghost var all := replay.Remaining();
    var done := false;
    while !done
      invariant fresh(replay) && replay.Valid()
      invariant !done ==>
                  && payload.trailers == None
                  && var rest := Received(replay.Remaining());
                     Payload(payload.bytes + rest.bytes, rest.trailers) == PayloadOf(body)
      invariant done ==> payload == PayloadOf(body)
      decreases if done then 0 else 1, |replay.Remaining()|
    {
      var frame := replay.PollFrame();
      match frame {
        case None => done := true;
        case Some(Data(chunk)) => payload := payload.(bytes := payload.bytes + chunk);
        case Some(Trailers(fields)) =>
          payload := payload.(trailers := Some(fields));
          done := true;
      }
    }
  }
}
