/** Properties of the server over several requests: the invariants every
    reachable state keeps, and how the handlers compose. */
module Traces {
  import opened Js
  import opened Store
  import opened Handlers

  /** Every handler keeps the count invariant and the snapshot in step with memory,
      so any sequence of requests does. */
  lemma {:induction false} RunKeepsGood(cfg: Config, s: Server, rs: seq<Request>)
    requires Good(s)
    ensures Good(Run(cfg, s, rs))
    decreases |rs|
  {
    if rs != [] {
      RunKeepsGood(cfg, Handle(cfg, s, rs[0]).next, rs[1..]);
    }
  }

  /** A server started without a license file is in a good state after any requests. */
  lemma ReachableIsGood(cfg: Config, rs: seq<Request>)
    ensures Valid(Run(cfg, Boot(None), rs).mem)
    ensures Synced(Run(cfg, Boot(None), rs))
  {
    RunKeepsGood(cfg, Boot(None), rs);
  }

  /** Requests that never save (lookups and admin listings) leave the whole server,
      file included, exactly as it was. */
  lemma {:induction false} ReadOnlyRunChangesNothing(cfg: Config, s: Server, rs: seq<Request>)
    requires forall i :: 0 <= i < |rs| ==> !MaySave(rs[i])
    ensures Run(cfg, s, rs) == s
    decreases |rs|
  {
    if rs != [] {
      assert !MaySave(rs[0]);
      ReadOnlyRunChangesNothing(cfg, s, rs[1..]);
    }
  }

  /** The requests that change the entry stored under `k`: an authorised clear,
      and an accepted webhook whose first item carries `k`. */
  predicate Touches(cfg: Config, r: Request, k: string) {
    || (r.ClearLicenses? && Authorized(cfg, r.key))
    || (r.PayhipWebhook? && SignatureOk(cfg, r.payload) && PayloadOk(r.payload)
        && r.payload.items[0].licenseKey == Some(k))
  }

  /** A key that no webhook writes and no clear wipes keeps its entry, or its
      absence, through any sequence of requests. */
  lemma {:induction false} UntouchedKeyPreserved(cfg: Config, s: Server, rs: seq<Request>, k: string)
    requires forall i :: 0 <= i < |rs| ==> !Touches(cfg, rs[i], k)
    ensures k in Run(cfg, s, rs).mem.licenses <==> k in s.mem.licenses
    ensures k in s.mem.licenses ==> Run(cfg, s, rs).mem.licenses[k] == s.mem.licenses[k]
    decreases |rs|
  {
    if rs != [] {
      assert !Touches(cfg, rs[0], k);
      UntouchedKeyPreserved(cfg, Handle(cfg, s, rs[0]).next, rs[1..], k);
    }
  }

  /** Read-your-write: once a webhook is accepted, validating its license key
      answers with exactly the record the webhook wrote. */
  lemma LookupAfterWebhook(cfg: Config, s: Server, p: Payload, now: string)
    requires SignatureOk(cfg, p) && PayloadOk(p)
    ensures
      var after := Webhook(cfg, s, p, now).next;
      var answer := Validate(after, p.items[0].licenseKey).response;
      && answer.status == 200
      && answer.body == Reply(true, Some("License validated successfully"), Some(NewLicense(p, now)))
  {
  }

  /** A second accepted webhook for the same license key overwrites the first:
      one entry, holding the later record (not yet activated, later timestamp),
      and the count is unchanged by the second write. */
  lemma RepeatedKeyOverwrites(cfg: Config, s: Server, p1: Payload, now1: string, p2: Payload, now2: string)
    requires Valid(s.mem)
    requires SignatureOk(cfg, p1) && PayloadOk(p1)
    requires SignatureOk(cfg, p2) && PayloadOk(p2)
    requires p1.items[0].licenseKey == p2.items[0].licenseKey
    ensures
      var key := p1.items[0].licenseKey.value;
      var first := Webhook(cfg, s, p1, now1).next;
      var second := Webhook(cfg, first, p2, now2).next;
      && second.mem.count == first.mem.count
      && first.mem.count == s.mem.count + (if key in s.mem.licenses then 0 else 1)
      && second.mem.licenses.Keys == first.mem.licenses.Keys
      && second.mem.licenses[key] == NewLicense(p2, now2)
      && !second.mem.licenses[key].activated
      && second.mem.licenses[key].createdAt == now2
  {
  }

  /** After an authorised clear, no license key validates in the corrected
      own-key lookup. */
  lemma ClearThenLookupFails(cfg: Config, s: Server, adminKey: Field, k: Field)
    requires Authorized(cfg, adminKey)
    ensures !Validate(ClearAll(cfg, s, adminKey).next, k).response.body.success
  {
  }

  /** The admin key is never empty, so a request without a key, or with an
      empty one, is refused by every admin route and changes nothing. */
  lemma MissingAdminKeyRefused(adminKeyEnv: Field, sign: Payload -> string, s: Server, key: Field)
    requires !Truthy(key)
    ensures
      var cfg := MakeConfig(adminKeyEnv, sign);
      && ListAll(cfg, s, key) == Step(Unauthorized, s)
      && ClearAll(cfg, s, key) == Step(Unauthorized, s)
      && BackupNow(cfg, s, key) == Step(Unauthorized, s)
  {
  }
}
