// The bounded pull-oriented output of token_output.rs, proved to be a faithful
// view of an unbounded log: whatever was accepted is delivered once, in order.
module TokenOutput {
  import opened Common
  import opened RuntimeTypes

  // A half-open range of absolute token cursors, or a state payload.
  datatype Kind<+S> = TokensAt(start: nat, length: nat) | StateOf(state: S)

  datatype Record<+S> = Record(request: RequestId, kind: Kind<S>)

  datatype Batch<+S> = Batch(start: nat, end: nat, tokens: seq<Token>, records: seq<Record<S>>)

  // One accepted publication.
  datatype Push<+S> = TokensPush(request: RequestId, tokens: seq<Token>) | StatePush(request: RequestId, payload: S)

  // What try_lock finds.
  datatype Lock = Free | Busy | LockPoisoned

  datatype PushError = ConsumerBusy | Poisoned | PushCapacity(capacity: Capacity)

  // TokenOutputBatch::tokens_for.
  function TokensFor<S>(batch: Batch<S>, start: nat, length: nat): Option<seq<Token>> {
    if start < batch.start then None
    else
      var offset := start - batch.start;
      if offset + length > |batch.tokens| then None else Some(batch.tokens[offset..offset + length])
  }

  // What a consumer reads from one record with the batch's own tokens_for.
  function Reading<S>(batch: Batch<S>, record: Record<S>): Option<Push<S>> {
    match record.kind
    case StateOf(state) => Some(StatePush(record.request, state))
    case TokensAt(start, length) =>
      var tokens := TokensFor(batch, start, length);
      if tokens.None? then None else Some(TokensPush(record.request, tokens.value))
  }

  // The batch reads as exactly these publications, record by record.
  ghost predicate Reads<S>(batch: Batch<S>, pushes: seq<Push<S>>) {
    && |pushes| == |batch.records|
    && forall i :: 0 <= i < |pushes| ==> Reading(batch, batch.records[i]) == Some(pushes[i])
  }

  // All tokens of a log, in order.
  function AllTokens<S>(log: seq<Push<S>>): seq<Token> {
    if log == [] then []
    else
      var last := log[|log| - 1];
      AllTokens(log[..|log| - 1]) + if last.TokensPush? then last.tokens else []
  }

  // A delivery history: consecutive batches that read as consecutive parts of the log.
  ghost predicate Delivers<S>(batches: seq<Batch<S>>, log: seq<Push<S>>, start: nat)
    decreases |batches|
  {
    if batches == [] then log == [] && start == 0
    else
      var last := batches[|batches| - 1];
      && last.end == start
      && last.start + |last.tokens| == last.end
      && |last.records| <= |log|
      && Reads(last, log[|log| - |last.records|..])
      && AllTokens(log[|log| - |last.records|..]) == last.tokens
      && Delivers(batches[..|batches| - 1], log[..|log| - |last.records|], last.start)
  }

  lemma {:induction false} AllTokensConcat<S>(a: seq<Push<S>>, b: seq<Push<S>>)
    ensures AllTokens(a + b) == AllTokens(a) + AllTokens(b)
    decreases |b|
  {
    if b == [] {
      assert a + b == a;
    } else {
      var n := |b| - 1;
      AllTokensConcat(a, b[..n]);
      assert (a + b)[..|a + b| - 1] == a + b[..n];
    }
  }

  // Appending tokens to a batch changes nothing it already reads.
  lemma ReadsAfterTokens<S>(batch: Batch<S>, pushes: seq<Push<S>>, request: RequestId, tokens: seq<Token>)
    requires Reads(batch, pushes) && batch.end == batch.start + |batch.tokens|
    ensures var record := Record(request, TokensAt(batch.end, |tokens|));
            Reads(Batch(batch.start, batch.end + |tokens|, batch.tokens + tokens, batch.records + [record]),
                  pushes + [TokensPush(request, tokens)])
  {
    var record := Record(request, TokensAt(batch.end, |tokens|));
    var next := Batch(batch.start, batch.end + |tokens|, batch.tokens + tokens, batch.records + [record]);
    var all := pushes + [TokensPush(request, tokens)];
    forall i | 0 <= i < |all|
      ensures Reading(next, next.records[i]) == Some(all[i])
    {
      if i < |pushes| {
        assert Reading(batch, batch.records[i]) == Some(pushes[i]);
        var kind := batch.records[i].kind;
        if kind.TokensAt? {
          var offset := kind.start - batch.start;
          assert next.tokens[offset..offset + kind.length] == batch.tokens[offset..offset + kind.length];
        }
      } else {
        assert next.records[i] == record;
        assert next.tokens[|batch.tokens|..|batch.tokens| + |tokens|] == tokens;
      }
    }
  }

  lemma ReadsAfterState<S>(batch: Batch<S>, pushes: seq<Push<S>>, request: RequestId, state: S)
    requires Reads(batch, pushes)
    ensures Reads(batch.(records := batch.records + [Record(request, StateOf(state))]), pushes + [StatePush(request, state)])
  {
    var next := batch.(records := batch.records + [Record(request, StateOf(state))]);
    var all := pushes + [StatePush(request, state)];
    forall i | 0 <= i < |all|
      ensures Reading(next, next.records[i]) == Some(all[i])
    {
      if i < |pushes| {
        assert Reading(batch, batch.records[i]) == Some(pushes[i]);
      }
    }
  }

  // The number of records in a delivery history.
  function Recorded<S>(batches: seq<Batch<S>>): nat {
    if batches == [] then 0 else Recorded(batches[..|batches| - 1]) + |batches[|batches| - 1].records|
  }

  // A delivery history batch by batch: batch i reads as exactly its own part of the
  // log, its tokens are that part's tokens, its cursors count all tokens before and
  // through it, and it starts where the batch before it ended.
  lemma {:induction false} DeliveredInOrder<S>(batches: seq<Batch<S>>, log: seq<Push<S>>, start: nat, i: nat)
    requires Delivers(batches, log, start)
    requires i < |batches|
    ensures var from, to := Recorded(batches[..i]), Recorded(batches[..i + 1]);
            && from <= to <= |log|
            && Reads(batches[i], log[from..to])
            && batches[i].tokens == AllTokens(log[from..to])
            && batches[i].start == |AllTokens(log[..from])|
            && batches[i].end == |AllTokens(log[..to])|
    decreases |batches|
  {
    hide Reads, AllTokens;
    var n := |batches| - 1;
    var last := batches[n];
    var cut := |log| - |last.records|;
    var from, to := Recorded(batches[..i]), Recorded(batches[..i + 1]);
    DeliveredWhole(batches[..n], log[..cut], last.start);
    assert batches[..n][..i] == batches[..i] && batches[..i + 1][..i] == batches[..i];
    if i == n {
      DeliveredWhole(batches, log, start);
      assert batches[..i + 1] == batches && log[..|log|] == log && log[cut..|log|] == log[cut..];
    } else {
      DeliveredInOrder(batches[..n], log[..cut], last.start, i);
      assert batches[..n][..i + 1] == batches[..i + 1];
      assert log[..cut][from..to] == log[from..to] && log[..cut][..from] == log[..from] && log[..cut][..to] == log[..to];
    }
  }

  // The batches hold the whole log and count all its tokens.
  lemma {:induction false} DeliveredWhole<S>(batches: seq<Batch<S>>, log: seq<Push<S>>, start: nat)
    requires Delivers(batches, log, start)
    ensures start == |AllTokens(log)| && |log| == Recorded(batches)
    decreases |batches|
  {
    hide Reads;
    if batches != [] {
      var last := batches[|batches| - 1];
      var cut := |log| - |last.records|;
      DeliveredWhole(batches[..|batches| - 1], log[..cut], last.start);
      AllTokensConcat(log[..cut], log[cut..]);
      assert log[..cut] + log[cut..] == log;
    }
  }

  lemma PushedAfter<S>(log: seq<Push<S>>, from: nat, push: Push<S>)
    requires from <= |log|
    ensures (log + [push])[from..] == log[from..] + [push]
    ensures (log + [push])[..from] == log[..from]
    ensures AllTokens((log + [push])[from..]) == AllTokens(log[from..]) + if push.TokensPush? then push.tokens else []
  {
    var rest := log[from..];
    assert (log + [push])[from..] == rest + [push];
    assert (rest + [push])[..|rest|] == rest;
  }

  // The shared state behind one producer and one consumer.
  class Accumulator<S> {
    const tokenCapacity: nat
    const recordCapacity: nat
    var start: nat
    var tokens: seq<Token>
    var records: seq<Record<S>>
    // Every accepted publication, those already pulled, and the batches handed out.
    ghost var accepted: seq<Push<S>>
    ghost var pulled: nat
    ghost var delivered: seq<Batch<S>>
    // How many publications were refused.
    ghost var refused: nat

    ghost function Current(): Batch<S>
      reads this
    {
      Batch(start, start + |tokens|, tokens, records)
    }

    // The buffer reads as the part of the log not yet pulled, the batches handed out as the rest.
    ghost predicate Valid()
      reads this
    {
      && |tokens| <= tokenCapacity
      && |records| <= recordCapacity
      && start + |tokens| <= U64_MAX
      && pulled <= |accepted|
      && Reads(Current(), accepted[pulled..])
      && AllTokens(accepted[pulled..]) == tokens
      && Delivers(delivered, accepted[..pulled], start)
    }

    constructor (tokenCapacity: nat, recordCapacity: nat)
      requires 0 < tokenCapacity && 0 < recordCapacity
      ensures Valid()
      ensures accepted == [] && delivered == []
      ensures this.tokenCapacity == tokenCapacity && this.recordCapacity == recordCapacity
    {
      this.tokenCapacity := tokenCapacity;
      this.recordCapacity := recordCapacity;
      start, tokens, records := 0, [], [];
      accepted, pulled, delivered, refused := [], 0, [], 0;
    }

    method EnsureRecordCapacity() returns (r: Result<(), PushError>)
      ensures r == if |records| + 1 > recordCapacity
                   then Err(PushCapacity(Capacity(OutputRecords, |records| + 1, recordCapacity))) else Ok(())
    {
      if |records| + 1 > recordCapacity {
        return Err(PushCapacity(Capacity(OutputRecords, |records| + 1, recordCapacity)));
      }
      return Ok(());
    }

    method CheckedCursor(offset: nat) returns (r: Result<nat, PushError>)
      ensures r == if start + offset <= U64_MAX then Ok(start + offset)
                   else Err(PushCapacity(Capacity(Tokens, offset, SaturatingSub(U64_MAX, start))))
    {
      if start + offset > U64_MAX {
        return Err(PushCapacity(Capacity(Tokens, offset, SaturatingSub(U64_MAX, start))));
      }
      return Ok(start + offset);
    }

    // Both ends of a new range; the first can only overflow if the second does.
    method CheckedRange(offset: nat, required: nat) returns (r: Result<nat, PushError>)
      requires offset <= required
      ensures r.Ok? <==> start + required <= U64_MAX
      ensures r.Ok? ==> r.value == start + offset
      ensures start + offset <= U64_MAX && r.Err? ==> r.error == PushCapacity(Capacity(Tokens, required, SaturatingSub(U64_MAX, start)))
    {
      var from :- CheckedCursor(offset);
      var _ :- CheckedCursor(required);
      return Ok(from);
    }

    // try_push_tokens: a rejected push changes nothing, an accepted one extends the log by itself.
    method TryPushTokens(request: RequestId, pushed: seq<Token>, lock: Lock) returns (r: Result<(), PushError>)
      requires Valid()
      modifies this
      ensures Valid()
      ensures r.Err? || pushed == [] ==>
        start == old(start) && tokens == old(tokens) && records == old(records) && accepted == old(accepted)
      ensures r.Ok? && pushed != [] ==> accepted == old(accepted) + [TokensPush(request, pushed)]
      ensures delivered == old(delivered) && pulled == old(pulled) && start == old(start)
      ensures refused == old(refused) + if r.Err? then 1 else 0
      ensures r.Ok? <==>
        || pushed == []
        || (lock.Free? && |old(tokens)| + |pushed| <= tokenCapacity && |old(records)| < recordCapacity
            && old(start) + |old(tokens)| + |pushed| <= U64_MAX)
      ensures pushed != [] && lock.Busy? ==> r == Err(ConsumerBusy)
      ensures pushed != [] && lock.LockPoisoned? ==> r == Err(Poisoned)
      ensures lock.Free? && |old(tokens)| + |pushed| > tokenCapacity && pushed != [] ==>
        r == Err(PushCapacity(Capacity(Tokens, |old(tokens)| + |pushed|, tokenCapacity)))
      ensures lock.Free? && |old(tokens)| + |pushed| <= tokenCapacity && pushed != [] && |old(records)| >= recordCapacity ==>
        r == Err(PushCapacity(Capacity(OutputRecords, |old(records)| + 1, recordCapacity)))
      ensures lock.Free? && |old(tokens)| + |pushed| <= tokenCapacity && pushed != [] && |old(records)| < recordCapacity
              && old(start) + |old(tokens)| + |pushed| > U64_MAX ==>
        r == Err(PushCapacity(Capacity(Tokens, |old(tokens)| + |pushed|, U64_MAX - old(start))))
    {
      hide Reads, AllTokens, Delivers;
      if pushed == [] {
        return Ok(());
      }
      refused := refused + 1;
      if lock.Busy? {
        return Err(ConsumerBusy);
      }
      if lock.LockPoisoned? {
        return Err(Poisoned);
      }
      var required := |tokens| + |pushed|;
      if required > tokenCapacity {
        return Err(PushCapacity(Capacity(Tokens, required, tokenCapacity)));
      }
      var _ :- EnsureRecordCapacity();
      var rangeStart :- CheckedRange(|tokens|, required);
      ReadsAfterTokens(Current(), accepted[pulled..], request, pushed);
      tokens := tokens + pushed;
      records := records + [Record(request, TokensAt(rangeStart, |pushed|))];
      PushedAfter(accepted, pulled, TokensPush(request, pushed));
      accepted, refused := accepted + [TokensPush(request, pushed)], old(refused);
      return Ok(());
    }

    // try_push_state.
    method TryPushState(request: RequestId, payload: S, lock: Lock) returns (r: Result<(), PushError>)
      requires Valid()
      modifies this
      ensures Valid()
      ensures r.Err? ==>
        start == old(start) && tokens == old(tokens) && records == old(records) && accepted == old(accepted)
      ensures r.Ok? ==> accepted == old(accepted) + [StatePush(request, payload)]
      ensures delivered == old(delivered) && pulled == old(pulled) && start == old(start)
      ensures refused == old(refused) + if r.Err? then 1 else 0
      ensures r.Ok? <==> lock.Free? && |old(records)| < recordCapacity
      ensures lock.Free? && r.Err? ==> r == Err(PushCapacity(Capacity(OutputRecords, |old(records)| + 1, recordCapacity)))
    {
      hide Reads, AllTokens, Delivers;
      refused := refused + 1;
      if lock.Busy? {
        return Err(ConsumerBusy);
      }
      if lock.LockPoisoned? {
        return Err(Poisoned);
      }
      var _ :- EnsureRecordCapacity();
      ReadsAfterState(Current(), accepted[pulled..], request, payload);
      records := records + [Record(request, StateOf(payload))];
      PushedAfter(accepted, pulled, StatePush(request, payload));
      accepted, refused := accepted + [StatePush(request, payload)], old(refused);
      return Ok(());
    }

    // pull: the batch reads as everything accepted since the last pull, and the
    // saturating end cursor is exact.
    method Pull(lock: Lock) returns (r: Option<Batch<S>>)
      requires Valid()
      modifies this
      ensures Valid() && refused == old(refused)
      ensures accepted == old(accepted)
      ensures r.None? <==> lock.LockPoisoned?
      ensures r.None? ==> pulled == old(pulled) && delivered == old(delivered)
                          && start == old(start) && tokens == old(tokens) && records == old(records)
      ensures r.Some? ==>
        && pulled == |accepted| && tokens == [] && records == []
        && delivered == old(delivered) + [r.value]
        && Reads(r.value, accepted[old(pulled)..])
        && r.value.start == old(start)
        && r.value.end == r.value.start + |r.value.tokens|
        && start == r.value.end
    {
      if lock.LockPoisoned? {
        return None;
      }
      var end := SaturatingAdd(start, |tokens|);
      var batch := Batch(start, end, tokens, records);
      start, tokens, records := end, [], [];
      assert accepted[..|accepted|] == accepted;
      assert accepted[|accepted| - |batch.records|..] == accepted[pulled..];
      assert accepted[..|accepted| - |batch.records|] == accepted[..pulled];
      assert (delivered + [batch])[..|delivered|] == delivered;
      delivered := delivered + [batch];
      pulled := |accepted|;
      return Some(batch);
    }
  }
}
