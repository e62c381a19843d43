/** The response-body limiter of the API client: a reader that fails, rather than truncates, once a
    body turns out to be longer than allowed. */
module LimitedBody {
  import opened Sequences
  import opened Options

  type Byte = bv8

  /** `TooLarge` is the limiter's own error; the others come from the underlying body. */
  datatype Error = TooLarge | EndOfFile | Broken(reason: nat)

  /** One call of Read on the limiter: the caller's buffer size, and what the underlying body does
      when asked: it hands over at most `chunk` bytes and may report an error along with them. */
  datatype Call = Call(bufferSize: nat, chunk: nat, failure: Option<Error>)

  datatype Answer = Answer(bytes: seq<Byte>, err: Option<Error>)

  /** `position` counts the bytes of `body` that were taken from the underlying reader. */
  datatype State = State(body: seq<Byte>, position: nat, left: nat, err: Option<Error>)

  predicate Within(s: State) {
    s.position <= |s.body|
  }

  function Min(a: int, b: int): int {
    if a < b then a else b
  }

  /** How many bytes the underlying body hands over for a buffer of the given size. */
  function Supplied(s: State, size: nat, chunk: nat): (n: nat)
    requires Within(s)
    ensures n <= size && n <= chunk && s.position + n <= |s.body|
  {
    Min(Min(size, chunk), |s.body| - s.position)
  }

  /** The underlying reader, read directly. */
  function BareRead(body: seq<Byte>, position: nat, call: Call): (nat, Answer)
    requires position <= |body|
  {
    var n := Min(Min(call.bufferSize, call.chunk), |body| - position);
    (position + n, Answer(body[position..position + n], call.failure))
  }

  function ReadStep(s: State, call: Call): (State, Answer)
    requires Within(s)
  {
    if s.err.Some? then (s, Answer([], s.err))
    else
      var n := Supplied(s, Min(call.bufferSize, s.left + 1), call.chunk);
      var taken := s.body[s.position..s.position + n];
      if n > s.left
      then (s.(position := s.position + n, left := 0, err := Some(TooLarge)), Answer(taken[..s.left], Some(TooLarge)))
      else (s.(position := s.position + n, left := s.left - n), Answer(taken, call.failure))
  }

  class Underlying {
    const body: seq<Byte>
    var position: nat

    constructor (body: seq<Byte>)
      ensures this.body == body && position == 0
    {
      this.body := body;
      position := 0;
    }

    /** Any reader: it fills a prefix of `p[..size]`. */
    method Read(p: array<Byte>, size: nat, chunk: nat, failure: Option<Error>) returns (n: nat, err: Option<Error>)
      requires size <= p.Length && position <= |body|
      modifies this, p
      ensures n == Min(Min(size, chunk), |body| - old(position))
      ensures position == old(position) + n && position <= |body|
      ensures p[..n] == body[old(position)..position]
      ensures err == failure
    {
      n := Min(Min(size, chunk), |body| - position);
      for i := 0 to n
        invariant position == old(position)
        invariant forall k :: 0 <= k < i ==> p[k] == body[position + k]
      {
        p[i] := body[position + i];
      }
      position := position + n;
      err := failure;
    }
  }

  class Limited {
    const rc: Underlying
    var left: int
    var err: Option<Error>

    ghost predicate Valid()
      reads this, rc
    {
      left >= 0 && rc.position <= |rc.body|
    }

    ghost function Value(): State
      requires Valid()
      reads this, rc
    {
      State(rc.body, rc.position, left, err)
    }

    constructor (rc: Underlying, limit: nat)
      requires rc.position == 0
      ensures this.rc == rc && Valid() && Value() == State(rc.body, 0, limit, None)
    {
      this.rc := rc;
      left := limit;
      err := None;
    }

    method Read(p: array<Byte>, chunk: nat, failure: Option<Error>) returns (n: int, e: Option<Error>)
      requires Valid()
      modifies this, rc, p
      ensures Valid() && 0 <= n <= p.Length
      ensures (Value(), Answer(p[..n], e)) == ReadStep(old(Value()), Call(p.Length, chunk, failure))
    {
      if err.Some? {
        return 0, err;
      }
      var size := p.Length;
      if size > left + 1 {
        size := left + 1;
      }
      var count, underlyingErr := rc.Read(p, size, chunk, failure);
      n := count;
      left := left - n;
      if left < 0 {
        n := n + left;
        left := 0;
        err := Some(TooLarge);
        assert p[..n] == p[..count][..n];
        return n, err;
      }
      return n, underlyingErr;
    }
  }

  // ---------------------------------------------------------------- runs

  /** The bytes that a sequence of calls delivers, and the state afterwards. */
  function Run(s: State, calls: seq<Call>): (r: (State, seq<Byte>))
    requires Within(s)
    ensures Within(r.0) && r.0.body == s.body
    decreases |calls|
  {
    if calls == [] then (s, [])
    else
      var (s1, a) := ReadStep(s, calls[0]);
      var (s2, more) := Run(s1, calls[1..]);
      (s2, a.bytes + more)
  }

  function Start(body: seq<Byte>, limit: nat): State {
    State(body, 0, limit, None)
  }

  /** After delivering `d` under the given limit: the delivered bytes are the front of the body; what
      is left and what was delivered make up the limit; the error, once set, means that exactly one
      byte beyond the limit was taken. */
  ghost predicate Accounted(s: State, d: seq<Byte>, limit: nat) {
    && Within(s)
    && |d| + s.left == limit
    && d <= s.body
    && (s.err == None || s.err == Some(TooLarge))
    && s.position == (if s.err.Some? then limit + 1 else |d|)
    && (s.err.Some? ==> s.left == 0)
  }

  lemma ReadAccounts(s: State, d: seq<Byte>, limit: nat, call: Call)
    requires Accounted(s, d, limit)
    ensures var (s', a) := ReadStep(s, call); Accounted(s', d + a.bytes, limit) && s'.body == s.body
  {
    var (s', a) := ReadStep(s, call);
    if s.err.None? {
      var n := Supplied(s, Min(call.bufferSize, s.left + 1), call.chunk);
      var taken := s.body[s.position..s.position + n];
      assert d == s.body[..s.position];
      assert d + taken == s.body[..s.position + n];
      if n > s.left {
        assert d + taken[..s.left] == s.body[..s.position + s.left];
      }
    } else {
      assert d + a.bytes == d;
    }
  }

  lemma {:induction false} RunAccounts(s: State, d: seq<Byte>, limit: nat, calls: seq<Call>)
    requires Accounted(s, d, limit)
    ensures Accounted(Run(s, calls).0, d + Run(s, calls).1, limit) && Run(s, calls).0.body == s.body
    decreases |calls|
  {
    if calls == [] {
      assert d + [] == d;
    } else {
      var (s1, a) := ReadStep(s, calls[0]);
      ReadAccounts(s, d, limit, calls[0]);
      RunAccounts(s1, d + a.bytes, limit, calls[1..]);
      Regroup(d, a.bytes, Run(s1, calls[1..]).1);
    }
  }

  /** For any body, chunking and buffer sizes: what is delivered is a prefix of the body, left and
      delivered always make up the limit, and at most one byte beyond the limit is consumed. */
  lemma DeliversPrefix(body: seq<Byte>, limit: nat, calls: seq<Call>)
    ensures var (s, delivered) := Run(Start(body, limit), calls);
            && delivered <= body
            && s.left + |delivered| == limit
            && s.position <= limit + 1
            && (s.err.None? ==> s.position == |delivered|)
            && (s.err.Some? ==> s.err == Some(TooLarge) && |delivered| == limit && |body| > limit)
  {
    RunAccounts(Start(body, limit), [], limit, calls);
    assert [] + Run(Start(body, limit), calls).1 == Run(Start(body, limit), calls).1;
  }

  /** A body within the limit is read as if the limiter were not there: same bytes, same errors, call
      by call. */
  lemma ShortBodyIsTransparent(body: seq<Byte>, limit: nat, calls: seq<Call>, call: Call)
    requires |body| <= limit
    ensures var s := Run(Start(body, limit), calls).0;
            var bare := BareRead(body, s.position, call);
            s.err.None? && s.body == body
            && ReadStep(s, call).1 == bare.1 && ReadStep(s, call).0.position == bare.0
  {
    RunAccounts(Start(body, limit), [], limit, calls);
  }

  /** The call asks for at least a byte and the underlying body complies without an error. */
  predicate Productive(call: Call) {
    call.bufferSize > 0 && call.chunk > 0 && call.failure.None?
  }

  lemma ProductiveReads(s: State, d: seq<Byte>, limit: nat, call: Call)
    requires Accounted(s, d, limit) && |s.body| > limit && Productive(call)
    ensures ReadStep(s, call).0.err.Some? || ReadStep(s, call).0.position > s.position
  {
  }

  lemma {:induction false} LongBodyTrips(s: State, d: seq<Byte>, limit: nat, calls: seq<Call>)
    requires Accounted(s, d, limit) && |s.body| > limit
    requires forall c :: c in calls ==> Productive(c)
    requires s.position + |calls| > limit
    ensures Run(s, calls).0.err == Some(TooLarge)
    decreases |calls|
  {
    if s.err.Some? {
      ErrorSticks(s, calls);
    } else {
      ProductiveReads(s, d, limit, calls[0]);
      ReadAccounts(s, d, limit, calls[0]);
      var (s1, a) := ReadStep(s, calls[0]);
      if s1.err.Some? {
        ErrorSticks(s1, calls[1..]);
      } else {
        LongBodyTrips(s1, d + a.bytes, limit, calls[1..]);
      }
    }
  }

  /** Once set, the error is all that any further call returns. */
  lemma {:induction false} ErrorSticks(s: State, calls: seq<Call>)
    requires Within(s) && s.err.Some?
    ensures Run(s, calls) == (s, [])
    decreases |calls|
  {
    if calls != [] {
      ErrorSticks(s, calls[1..]);
      assert [] + Run(s, calls[1..]).1 == [];
    }
  }

  /** A longer body, read on without an underlying error, delivers exactly the first `limit` bytes and
      then fails for good. */
  lemma LongBodyIsRefused(body: seq<Byte>, limit: nat, calls: seq<Call>, further: seq<Call>, call: Call)
    requires |body| > limit
    requires forall c :: c in calls ==> Productive(c)
    requires |calls| > limit
    ensures var (s, delivered) := Run(Start(body, limit), calls);
            && delivered == body[..limit]
            && Run(s, further) == (s, [])
            && ReadStep(s, call) == (s, Answer([], Some(TooLarge)))
  {
    DeliversPrefix(body, limit, calls);
    LongBodyTrips(Start(body, limit), [], limit, calls);
    ErrorSticks(Run(Start(body, limit), calls).0, further);
  }

  /** Too large is reported if and only if more than `limit` bytes came out of the underlying body. */
  lemma TooLargeExactly(body: seq<Byte>, limit: nat, calls: seq<Call>)
    ensures var s := Run(Start(body, limit), calls).0;
            s.err == Some(TooLarge) <==> s.position > limit
  {
    RunAccounts(Start(body, limit), [], limit, calls);
  }
}
