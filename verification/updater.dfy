/**
 * The record updater of provider.go (`updateTxtValue`) as an oracle: the HTTP
 * request to the ACME-DNS server is not modelled, only which account and value
 * each update was sent with and whether the server accepted it.
 */
module Updater {
  import opened AcmeDns

  /** One `updateTxtValue(account, value)` call and whether it succeeded. */
  datatype UpdateCall = UpdateCall(account: Account, value: string, accepted: bool)

  /** The outcomes of a sequence of calls, in the order they were made. */
  function Answers(calls: seq<UpdateCall>): seq<bool>
  {
    seq(|calls|, k requires 0 <= k < |calls| => calls[k].accepted)
  }

  /** The answers to calls made one after another are the answers to the first ones, then to the rest. */
  lemma {:induction false} AnswersAppend(a: seq<UpdateCall>, b: seq<UpdateCall>)
    ensures Answers(a + b) == Answers(a) + Answers(b)
  {
  }

  /**
   * The ACME-DNS servers the provider reaches, seen as one object: it answers
   * each update, and the log records every call. With a domain table each
   * entry can name its own server, so a logged call's `account.serverUrl`
   * says which server it went to.
   */
  class AcmeDnsServer {
    /** Every update sent to this server so far, oldest first. */
    ghost var log: seq<UpdateCall>

    constructor ()
      ensures log == []
    {
      log := [];
    }

    /**
     * `updateTxtValue`: asks the server to serve `value` as the TXT record of
     * `acc.subdomain`. Whether it succeeds is decided by the network and the
     * server (transport error, non-200 status), so the answer is arbitrary.
     */
    method UpdateTxtValue(acc: Account, value: string) returns (ok: bool)
      modifies this
      ensures log == old(log) + [UpdateCall(acc, value, ok)]
    {
      ok := *;
      log := log + [UpdateCall(acc, value, ok)];
    }
  }
}
