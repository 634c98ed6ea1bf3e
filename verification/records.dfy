/**
 * The libdns record operations of the ACME-DNS provider (provider.go):
 * AppendRecords and SetRecords push TXT values one record at a time and stop
 * at the first failure; DeleteRecords does nothing; GetRecords always fails.
 */
module Records {
  import opened Wrappers
  import opened AcmeDns
  import opened Updater

  /** A libdns resource record, with the fields the provider reads or writes. */
  datatype Record = Record(rrType: string, name: string, ttl: int, data: string)

  /** What each of the four libdns operations returns: Go's `([]libdns.Record, error)`. */
  datatype Reply = Reply(records: seq<Record>, err: Option<Error>)

  /** The record reported for an applied input: type TXT, its name and data, and a zero TTL. */
  function Normalize(rec: Record): (r: Record)
    ensures r.rrType == "TXT" && r.name == rec.name && r.data == rec.data && r.ttl == 0
  {
    Record("TXT", rec.name, 0, rec.data)
  }

  /** What a batch of updates amounts to: the records reported, the error, and the update calls made. */
  datatype BatchResult = BatchResult(applied: seq<Record>, err: Option<Error>, calls: seq<UpdateCall>)

  /** How each record name is mapped to its account, or to the reason there is none. */
  type Selector = string -> Result<Account, Error>

  /** `Provider.selectAccount` with the provider and the zone fixed. */
  function AccountSelector(p: Provider, absName: NameResolver, zone: string): Selector
  {
    name => SelectAccount(p, absName, zone, name)
  }

  /** True when `rec` gets past the type check and account selection and the server accepts its update. */
  predicate Applies(select: Selector, rec: Record, accepted: bool)
  {
    rec.rrType == "TXT" && select(rec.name).Success? && accepted
  }

  /** The answer the server gives to the `k`-th update; an update it never answers counts as failed. */
  function Answer(answers: seq<bool>, k: nat): bool
  {
    k < |answers| && answers[k]
  }

  /**
   * The meaning of AppendRecords, given the server's answers to successive
   * updates: records are handled in order, and the first one that is not TXT,
   * has no account or whose update fails ends the batch with an error.
   */
  function Batch(select: Selector, recs: seq<Record>, answers: seq<bool>): (b: BatchResult)
    ensures |b.applied| <= |recs|
    ensures forall k :: 0 <= k < |b.applied| ==> b.applied[k] == Normalize(recs[k])
    ensures b.err.None? <==> |b.applied| == |recs|
    ensures |b.applied| <= |b.calls| <= |b.applied| + 1
    ensures b.err.None? ==> |b.calls| == |b.applied|
    decreases |recs|
  {
    if recs == [] then BatchResult([], None, [])
    else
      var rec := recs[0];
      if rec.rrType != "TXT" then BatchResult([], Some(UnsupportedRecordType), [])
      else
        match select(rec.name)
        case Failure(e) => BatchResult([], Some(e), [])
        case Success(acc) =>
          var ok := Answer(answers, 0);
          var call := UpdateCall(acc, rec.data, ok);
          if !ok then BatchResult([], Some(UpdateFailed), [call])
          else
            var rest := Batch(select, recs[1..], answers[1..]);
            BatchResult([Normalize(rec)] + rest.applied, rest.err, [call] + rest.calls)
  }

  /** A completed batch followed by another one. */
  function Join(first: BatchResult, second: BatchResult): BatchResult
  {
    BatchResult(first.applied + second.applied, second.err, first.calls + second.calls)
  }

  /** Joining batches is associative. */
  lemma {:induction false} JoinAssociative(x: BatchResult, y: BatchResult, z: BatchResult)
    ensures Join(Join(x, y), z) == Join(x, Join(y, z))
  {
    assert (x.applied + y.applied) + z.applied == x.applied + (y.applied + z.applied);
    assert (x.calls + y.calls) + z.calls == x.calls + (y.calls + z.calls);
  }

  /** A batch whose first record is applied is that record's update followed by the batch of the rest. */
  lemma {:induction false} BatchFirstApplied(select: Selector, recs: seq<Record>, answers: seq<bool>)
    requires recs != [] && Applies(select, recs[0], Answer(answers, 0))
    ensures Batch(select, recs, answers)
            == Join(BatchResult([Normalize(recs[0])], None,
                                [UpdateCall(select(recs[0].name).value, recs[0].data, true)]),
                    Batch(select, recs[1..], answers[1..]))
  {
  }

  /** A batch that completes without error can be followed by the rest of the records. */
  lemma {:induction false} BatchAppend(select: Selector,
                                       a: seq<Record>, b: seq<Record>, ansA: seq<bool>, ansB: seq<bool>)
    requires |ansA| == |a|
    requires Batch(select, a, ansA).err.None?
    ensures Batch(select, a + b, ansA + ansB)
            == Join(Batch(select, a, ansA), Batch(select, b, ansB))
    decreases |a|
  {
    if a == [] {
      assert a + b == b;
      assert ansA + ansB == ansB;
    } else {
      BatchSucceedsIff(select, a, ansA);
      assert Applies(select, a[0], Answer(ansA, 0));
      assert (a + b)[0] == a[0] && (a + b)[1..] == a[1..] + b;
      assert (ansA + ansB)[0] == ansA[0] && (ansA + ansB)[1..] == ansA[1..] + ansB;
      BatchFirstApplied(select, a, ansA);
      BatchFirstApplied(select, a + b, ansA + ansB);
      BatchAppend(select, a[1..], b, ansA[1..], ansB);
      var head := BatchResult([Normalize(a[0])], None,
                              [UpdateCall(select(a[0].name).value, a[0].data, true)]);
      JoinAssociative(head, Batch(select, a[1..], ansA[1..]), Batch(select, b, ansB));
    }
  }

  /**
   * The `k`-th update call of a batch is made for the `k`-th record, with the
   * account selected for it and its data, and succeeds exactly when the
   * server's `k`-th answer is yes; only the last call can have failed.
   */
  lemma {:induction false} BatchCalls(select: Selector,
                                      recs: seq<Record>, answers: seq<bool>, k: nat)
    requires k < |Batch(select, recs, answers).calls|
    ensures k < |recs| && recs[k].rrType == "TXT"
    ensures select(recs[k].name).Success?
    ensures Batch(select, recs, answers).calls[k]
            == UpdateCall(select(recs[k].name).value, recs[k].data, Answer(answers, k))
    ensures Answer(answers, k) <==> k < |Batch(select, recs, answers).applied|
    decreases k
  {
    if k > 0 {
      BatchCalls(select, recs[1..], answers[1..], k - 1);
      assert recs[1..][k - 1] == recs[k];
      assert Answer(answers[1..], k - 1) == Answer(answers, k);
    }
  }

  /**
   * A batch fails exactly at the first record that is not TXT, has no account,
   * or whose update the server rejects; every record before it was applied.
   */
  lemma {:induction false} BatchSucceedsIff(select: Selector,
                                            recs: seq<Record>, answers: seq<bool>)
    ensures var b := Batch(select, recs, answers);
      forall k :: 0 <= k < |b.applied| ==> Applies(select, recs[k], Answer(answers, k))
    ensures Batch(select, recs, answers).err.None? <==>
      forall k :: 0 <= k < |recs| ==> Applies(select, recs[k], Answer(answers, k))
    decreases |recs|
  {
    if recs != [] && Applies(select, recs[0], Answer(answers, 0)) {
      BatchSucceedsIff(select, recs[1..], answers[1..]);
      forall k | 1 <= k < |recs|
        ensures Applies(select, recs[k], Answer(answers, k))
            == Applies(select, recs[1..][k - 1], Answer(answers[1..], k - 1))
      {
        assert recs[1..][k - 1] == recs[k];
      }
    }
  }

  /**
   * A failed batch stopped at record `k`, the number of records applied, and
   * its error says why: the record is not TXT, its account cannot be
   * selected, or the server rejected its update (the only case where record
   * `k` was sent).
   */
  lemma {:induction false} BatchFailurePoint(select: Selector,
                                             recs: seq<Record>, answers: seq<bool>)
    requires Batch(select, recs, answers).err.Some?
    ensures var b := Batch(select, recs, answers);
      var k := |b.applied|;
      && k < |recs|
      && (recs[k].rrType != "TXT" ==> b.err == Some(UnsupportedRecordType) && |b.calls| == k)
      && (recs[k].rrType == "TXT" && select(recs[k].name).Failure? ==>
            b.err == Some(select(recs[k].name).error) && |b.calls| == k)
      && (recs[k].rrType == "TXT" && select(recs[k].name).Success? ==>
            b.err == Some(UpdateFailed) && !Answer(answers, k) && |b.calls| == k + 1)
    decreases |recs|
  {
    if Applies(select, recs[0], Answer(answers, 0)) {
      BatchFirstApplied(select, recs, answers);
      BatchFailurePoint(select, recs[1..], answers[1..]);
      var k := |Batch(select, recs[1..], answers[1..]).applied|;
      assert recs[1..][k] == recs[k + 1];
      assert Answer(answers[1..], k) == Answer(answers, k + 1);
    }
  }

  /** Records after the one a batch failed on are never looked at: appending more changes nothing. */
  lemma {:induction false} BatchIgnoresLaterRecords(select: Selector,
                                                    recs: seq<Record>, more: seq<Record>, answers: seq<bool>)
    requires Batch(select, recs, answers).err.Some?
    ensures Batch(select, recs + more, answers) == Batch(select, recs, answers)
    decreases |recs|
  {
    assert (recs + more)[0] == recs[0];
    if Applies(select, recs[0], Answer(answers, 0)) {
      assert (recs + more)[1..] == recs[1..] + more;
      BatchFirstApplied(select, recs, answers);
      BatchFirstApplied(select, recs + more, answers);
      BatchIgnoresLaterRecords(select, recs[1..], more, answers[1..]);
    }
  }

  /**
   * Three TXT records sent with one flat account, the second update rejected:
   * only the first record is reported, the error is the update failure, and
   * the third record is never sent.
   */
  lemma {:induction false} SecondOfThreeFails(p: Provider, absName: NameResolver, zone: string,
                                              r1: Record, r2: Record, r3: Record, answers: seq<bool>)
    requires p.configs.None? && p.username != "" && p.password != "" && p.subdomain != "" && p.serverUrl != ""
    requires r1.rrType == "TXT" && r2.rrType == "TXT" && r3.rrType == "TXT"
    requires Answer(answers, 0) && !Answer(answers, 1)
    ensures var acc := Account(p.username, p.password, p.subdomain, p.serverUrl);
      Batch(AccountSelector(p, absName, zone), [r1, r2, r3], answers)
      == BatchResult([Normalize(r1)], Some(UpdateFailed), [UpdateCall(acc, r1.data, true), UpdateCall(acc, r2.data, false)])
  {
    var recs := [r1, r2, r3];
    assert recs[1..] == [r2, r3];
    assert Answer(answers[1..], 0) == Answer(answers, 1);
  }

  /** A batch of one record: the type check, the account selection and the update, in that order. */
  lemma {:induction false} BatchOfOne(select: Selector, rec: Record, answers: seq<bool>)
    ensures Batch(select, [rec], answers) ==
      if rec.rrType != "TXT" then BatchResult([], Some(UnsupportedRecordType), [])
      else if select(rec.name).Failure? then
        BatchResult([], Some(select(rec.name).error), [])
      else
        var call := UpdateCall(select(rec.name).value, rec.data, Answer(answers, 0));
        if call.accepted then BatchResult([Normalize(rec)], None, [call])
        else BatchResult([], Some(UpdateFailed), [call])
  {
    assert [rec][1..] == [];
  }

  /** The loop step of AppendRecords: record `i` is handled after the first `i` were applied. */
  lemma {:induction false} BatchNextRecord(select: Selector, recs: seq<Record>, i: nat,
                                           made: seq<UpdateCall>, appended: seq<Record>, tail: seq<UpdateCall>)
    requires i < |recs|
    requires Batch(select, recs[..i], Answers(made)) == BatchResult(appended, None, made)
    ensures Batch(select, recs[..i + 1], Answers(made + tail))
            == Join(BatchResult(appended, None, made), Batch(select, [recs[i]], Answers(tail)))
  {
    var a, ans := recs[..i], Answers(made);
    assert |ans| == |a| by {
      assert |made| == |appended| == i;
    }
    BatchAppend(select, a, [recs[i]], ans, Answers(tail));
    AnswersAppend(made, tail);
    assert recs[..i + 1] == a + [recs[i]];
  }

  /**
   * One turn of the AppendRecords loop: reject `rec` unless it is TXT, select
   * its account, and send its data to the server. At most one update call is
   * made, and the outcome is that of `Batch` on this one record.
   */
  method AppendOne(p: Provider, absName: NameResolver, server: AcmeDnsServer, zone: string, rec: Record)
    returns (err: Option<Error>)
    modifies server
    ensures |old(server.log)| <= |server.log| && server.log[..|old(server.log)|] == old(server.log)
    ensures var made := server.log[|old(server.log)|..];
      Batch(AccountSelector(p, absName, zone), [rec], Answers(made))
      == BatchResult(if err.None? then [Normalize(rec)] else [], err, made)
  {
    ghost var before := server.log;
    ghost var select := AccountSelector(p, absName, zone);
    BatchOfOne(select, rec, []);
    if rec.rrType != "TXT" {
      err := Some(UnsupportedRecordType);
      assert server.log[|before|..] == [];
      return;
    }
    var selected := SelectAccount(p, absName, zone, rec.name);
    assert select(rec.name) == selected;
    if selected.Failure? {
      err := Some(selected.error);
      assert server.log[|before|..] == [];
      return;
    }
    var ok := server.UpdateTxtValue(selected.value, rec.data);
    ghost var call := UpdateCall(selected.value, rec.data, ok);
    assert server.log[|before|..] == [call];
    assert Answers([call]) == [ok];
    BatchOfOne(select, rec, [ok]);
    err := if ok then None else Some(UpdateFailed);
  }

  /**
   * AppendRecords: for each requested record in order, reject it unless it is
   * TXT, select its account, and send its data to the server; stop at the
   * first failure and return what was applied so far with the error. The
   * update calls made are exactly those of `Batch` for the server's answers.
   */
  method AppendRecords(p: Provider, absName: NameResolver, server: AcmeDnsServer, zone: string, recs: seq<Record>)
    returns (reply: Reply)
    modifies server
    ensures |old(server.log)| <= |server.log| && server.log[..|old(server.log)|] == old(server.log)
    ensures var made := server.log[|old(server.log)|..];
      Batch(AccountSelector(p, absName, zone), recs, Answers(made)) == BatchResult(reply.records, reply.err, made)
  {
    ghost var before := server.log;
    ghost var select := AccountSelector(p, absName, zone);
    ghost var made: seq<UpdateCall> := [];
    var appended := [];
    var i := 0;
    assert before + made == before;
    while i < |recs|
      invariant 0 <= i <= |recs|
      invariant server.log == before + made
      invariant Batch(select, recs[..i], Answers(made)) == BatchResult(appended, None, made)
    {
      ghost var start := server.log;
      var err := AppendOne(p, absName, server, zone, recs[i]);
      ghost var tail := server.log[|start|..];
      assert server.log == start + tail by {
        assert server.log == server.log[..|start|] + server.log[|start|..];
      }
      assert (before + made) + tail == before + (made + tail);
      if err.Some? {
        reply := Reply(appended, err);
        StopAt(select, recs, i, made, appended, tail);
        assert server.log[|before|..] == made + tail;
        return;
      }
      BatchNextRecord(select, recs, i, made, appended, tail);
      appended := appended + [Normalize(recs[i])];
      made := made + tail;
      i := i + 1;
    }
    assert recs[..i] == recs;
    assert server.log[|before|..] == made;
    reply := Reply(appended, None);
  }

  /** The early returns of AppendRecords: when record `i` fails, the batch ends there. */
  lemma {:induction false} StopAt(select: Selector, recs: seq<Record>, i: nat,
                                  made: seq<UpdateCall>, appended: seq<Record>, tail: seq<UpdateCall>)
    requires i < |recs|
    requires Batch(select, recs[..i], Answers(made)) == BatchResult(appended, None, made)
    requires Batch(select, [recs[i]], Answers(tail)).err.Some?
    requires Batch(select, [recs[i]], Answers(tail)).calls == tail
    ensures Batch(select, recs, Answers(made + tail))
            == BatchResult(appended, Batch(select, [recs[i]], Answers(tail)).err, made + tail)
  {
    BatchNextRecord(select, recs, i, made, appended, tail);
    assert appended + [] == appended;
    BatchIgnoresLaterRecords(select, recs[..i + 1], recs[i + 1..], Answers(made + tail));
    assert recs[..i + 1] + recs[i + 1..] == recs;
  }

  /** SetRecords: ACME-DNS can only overwrite, so setting is appending. */
  method SetRecords(p: Provider, absName: NameResolver, server: AcmeDnsServer, zone: string, recs: seq<Record>)
    returns (reply: Reply)
    modifies server
    ensures |old(server.log)| <= |server.log| && server.log[..|old(server.log)|] == old(server.log)
    ensures var made := server.log[|old(server.log)|..];
      Batch(AccountSelector(p, absName, zone), recs, Answers(made)) == BatchResult(reply.records, reply.err, made)
  {
    reply := AppendRecords(p, absName, server, zone, recs);
  }

  /** DeleteRecords: ACME-DNS cannot delete, and old values age out on their own, so nothing is done. */
  function DeleteRecords(p: Provider, zone: string, recs: seq<Record>): (r: Reply)
    ensures r.records == [] && r.err.None?
  {
    Reply([], None)
  }

  /** GetRecords: ACME-DNS cannot list records, so this always fails. */
  function GetRecords(p: Provider, zone: string): (r: Reply)
    ensures r.err == Some(GetUnsupported) && r.records == []
  {
    Reply([], Some(GetUnsupported))
  }
}
