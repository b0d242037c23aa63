/** Length-prefixed framing of the BFD data plane protocol over a byte stream. */
module Framing {
  import opened Basics
  import opened StreamBuffer

  type Bytes = seq<u8>

  const HEADER_SIZE: nat := 8

  datatype Status = Fine | TooShort | Refused | Overflow

  /** Messages handed to the callback so far, bytes not yet framed, and how it stands. */
  datatype Outcome = Outcome(msgs: seq<Bytes>, rest: Bytes, status: Status)

  /** The big-endian length field closes the header. */
  function MessageLength(s: Bytes): u16
    requires |s| >= HEADER_SIZE
  {
    var hi: int, lo: int := s[6], s[7];
    hi * 256 + lo
  }

  /** Framing of a whole stream. The callback is any deterministic one: `cb(msgs)` says whether it
      takes the last of `msgs`, having seen the others. */
  function Parse(s: Bytes, msgs: seq<Bytes>, cb: seq<Bytes> -> bool): Outcome
    decreases |s|
  {
    if |s| < HEADER_SIZE then Outcome(msgs, s, Fine)
    else
      var n := MessageLength(s);
      if n < HEADER_SIZE then Outcome(msgs, s, TooShort)
      else if |s| < n then Outcome(msgs, s, Fine)
      else
        var msgs1 := msgs + [s[..n]];
        if cb(msgs1) then Parse(s[n..], msgs1, cb) else Outcome(msgs1, s[n..], Refused)
  }

  /** One chunk on top of what is there; after an error the peer is gone. */
  function Feed(o: Outcome, chunk: Bytes, cb: seq<Bytes> -> bool): Outcome {
    if o.status.Fine? then Parse(o.rest + chunk, o.msgs, cb) else o
  }

  function FeedAll(o: Outcome, chunks: seq<Bytes>, cb: seq<Bytes> -> bool): Outcome
    decreases |chunks|
  {
    if chunks == [] then o else FeedAll(Feed(o, chunks[0], cb), chunks[1..], cb)
  }

  function Concat(chunks: seq<Bytes>): Bytes {
    if chunks == [] then [] else chunks[0] + Concat(chunks[1..])
  }

  /** What the front of a stream comes to: nothing while the header or the message is incomplete, an error
      when the header's length does not cover the header, and otherwise one message of that length, with
      which the callback ends everything or lets it go on. */
  lemma FrontOf(s: Bytes, msgs: seq<Bytes>, cb: seq<Bytes> -> bool)
    ensures var o := Parse(s, msgs, cb);
            if |s| < 8 then o == Outcome(msgs, s, Fine)
            else
              var hi: int, lo: int := s[6], s[7];
              var n := 256 * hi + lo;
              if n < 8 then o == Outcome(msgs, s, TooShort)
              else if |s| < n then o == Outcome(msgs, s, Fine)
              else if !cb(msgs + [s[..n]]) then o == Outcome(msgs + [s[..n]], s[n..], Refused)
              else o == Parse(s[n..], msgs + [s[..n]], cb)
  {
  }

  /** Parsing can stop anywhere and go on: more bytes do not change what was delivered, nor an error. */
  lemma {:induction false} ParseResumes(a: Bytes, b: Bytes, msgs: seq<Bytes>, cb: seq<Bytes> -> bool)
    ensures var o := Parse(a, msgs, cb);
            Parse(a + b, msgs, cb) == if o.status.Fine? then Parse(o.rest + b, o.msgs, cb) else o.(rest := o.rest + b)
    decreases |a|
  {
    if |a| >= HEADER_SIZE {
      var n := MessageLength(a);
      assert MessageLength(a + b) == n;
      if HEADER_SIZE <= n <= |a| {
        assert (a + b)[..n] == a[..n] && (a + b)[n..] == a[n..] + b;
        if cb(msgs + [a[..n]]) {
          ParseResumes(a[n..], b, msgs + [a[..n]], cb);
        }
      }
    }
  }

  /** What is left over is less than a message, so parsing it again does nothing. */
  lemma {:induction false} RestIsIncomplete(s: Bytes, msgs: seq<Bytes>, cb: seq<Bytes> -> bool)
    ensures var o := Parse(s, msgs, cb);
            o.status.Fine? ==> Parse(o.rest, o.msgs, cb) == o
    decreases |s|
  {
    if |s| >= HEADER_SIZE && HEADER_SIZE <= MessageLength(s) <= |s| {
      var n := MessageLength(s);
      if cb(msgs + [s[..n]]) {
        RestIsIncomplete(s[n..], msgs + [s[..n]], cb);
      }
    }
  }

  /** Both see the same: the same messages, the same status, and, if that is fine, the same rest. */
  predicate SameOutcome(o: Outcome, p: Outcome) {
    o.msgs == p.msgs && o.status == p.status && (o.status.Fine? ==> o.rest == p.rest)
  }

  lemma {:induction false} FeedIsParse(seen: Bytes, chunks: seq<Bytes>, cb: seq<Bytes> -> bool, o: Outcome)
    requires SameOutcome(o, Parse(seen, [], cb))
    ensures SameOutcome(FeedAll(o, chunks, cb), Parse(seen + Concat(chunks), [], cb))
    decreases |chunks|
  {
    if chunks == [] {
      assert seen + Concat(chunks) == seen;
    } else {
      ParseResumes(seen, chunks[0], [], cb);
      FeedIsParse(seen + chunks[0], chunks[1..], cb, Feed(o, chunks[0], cb));
      assert seen + chunks[0] + Concat(chunks[1..]) == seen + Concat(chunks);
    }
  }

  /** Framing is independent of chunking: however a stream is cut, the callback gets the messages it
      would get from the whole stream at once, and the first error is the same. */
  lemma ChunkingIrrelevant(chunks: seq<Bytes>, cb: seq<Bytes> -> bool)
    ensures SameOutcome(FeedAll(Outcome([], [], Fine), chunks, cb), Parse(Concat(chunks), [], cb))
  {
    FeedIsParse([], chunks, cb, Outcome([], [], Fine));
    assert [] + Concat(chunks) == Concat(chunks);
  }

  /** A message whose length field is right. */
  predicate WellFramed(m: Bytes) {
    |m| >= HEADER_SIZE && MessageLength(m) == |m|
  }

  predicate TakesAll(done: seq<Bytes>, ms: seq<Bytes>, cb: seq<Bytes> -> bool) {
    forall i :: 0 < i <= |ms| ==> cb(done + ms[..i])
  }

  /** What is sent is what arrives: a stream of well-framed messages is delivered message by message,
      with nothing left over. */
  lemma {:induction false} MessagesArrive(done: seq<Bytes>, ms: seq<Bytes>, cb: seq<Bytes> -> bool)
    requires forall i :: 0 <= i < |ms| ==> WellFramed(ms[i])
    requires TakesAll(done, ms, cb)
    ensures Parse(Concat(ms), done, cb) == Outcome(done + ms, [], Fine)
    decreases |ms|
  {
    if ms == [] {
      assert done + ms == done;
    } else {
      var s, m := Concat(ms), ms[0];
      assert WellFramed(m) && MessageLength(s) == |m|;
      assert s[..|m|] == m && s[|m|..] == Concat(ms[1..]);
      assert cb(done + ms[..1]) && ms[..1] == [m];
      forall i | 0 < i <= |ms[1..]|
        ensures cb(done + [m] + ms[1..][..i])
      {
        assert done + [m] + ms[1..][..i] == done + ms[..i + 1];
      }
      MessagesArrive(done + [m], ms[1..], cb);
      assert done + [m] + ms[1..] == done + ms;
    }
  }

  /** `struct bbdd_util_ssk_bfddp_tkn`: the buffer, and the record of what the callback was given. */
  class Tokenizer {
    const sb: Buffer
    var msgs: seq<Bytes>

    ghost predicate Valid()
      reads this, sb
    {
      sb.Valid()
    }

    ghost function State(status: Status): Outcome
      requires Valid()
      reads this, sb, sb.buf
    {
      Outcome(msgs, sb.Contents(), status)
    }

    constructor (maxsize: nat)
      ensures Valid() && fresh(sb) && sb.maxsize == maxsize && sb.buf == null && State(Fine) == Outcome([], [], Fine)
    {
      sb := new Buffer(maxsize);
      msgs := [];
    }

    /** `bbdd_util_ssk_bfddp_tkn_rx_cb`: with no limit, exactly one step of `Feed`. */
    method Receive(chunk: Bytes, cb: seq<Bytes> -> bool) returns (status: Status)
      requires Valid()
      modifies this, sb, sb.buf
      ensures Valid()
      ensures status.Overflow? <==> sb.maxsize != 0 && |old(sb.Contents())| + |chunk| + 1 > sb.maxsize
      ensures State(status) == if status.Overflow? then old(State(Fine)).(status := Overflow)
                               else Feed(old(State(Fine)), chunk, cb)
    {
      ghost var o := State(Fine);
      var ok := sb.Push(chunk);
      if !ok {
        return Overflow;
      }
      assert sb.Contents() == o.rest + chunk;
      status := Fine;
      var more := true;
      while more
        invariant Valid()
        invariant if more then status == Fine && Parse(sb.Contents(), msgs, cb) == Feed(o, chunk, cb)
                  else State(status) == Feed(o, chunk, cb) && status != Overflow
        decreases more, |sb.Contents()|
      {
        status, more := Next(cb);
      }
    }

    /** One message off the buffer, or the reason why there is none. */
    method Next(cb: seq<Bytes> -> bool) returns (status: Status, more: bool)
      requires Valid()
      modifies this, sb`off, sb`len
      ensures Valid() && status != Overflow
      ensures if more then status == Fine && |sb.Contents()| < |old(sb.Contents())|
                           && Parse(sb.Contents(), msgs, cb) == Parse(old(sb.Contents()), old(msgs), cb)
              else State(status) == Parse(old(sb.Contents()), old(msgs), cb)
    {
      var s := sb.Contents();
      if |s| < HEADER_SIZE {
        return Fine, false;
      }
      var n := MessageLength(s);
      if n < HEADER_SIZE {
        return TooShort, false;
      }
      if |s| < n {
        return Fine, false;
      }
      msgs := msgs + [s[..n]];
      sb.Pull(n);
      if !cb(msgs) {
        return Refused, false;
      }
      return Fine, true;
    }
  }
}
