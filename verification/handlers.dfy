/** The HTTP handlers of the license server as pure steps from a server state and
    a request to a response and the next server state.

    The server state pairs the in-memory store with the persisted snapshot, the
    content of the license file that `saveLicenses` rewrites as a whole. */
module Handlers {
  import opened Js
  import opened Store

  /** The fallback admin key used when the environment sets none. */
  const DefaultAdminKey: string := "mila_admin_secret"

  /** What the handlers read from the environment and from code they call but do
      not define: the admin key and the webhook signer (HMAC-SHA256 with the
      Payhip API key over `JSON.stringify(body)`, hex-encoded). */
  datatype Config = Config(adminKey: string, sign: Payload -> string)

  /** `ADMIN_KEY = process.env.ADMIN_KEY || "mila_admin_secret"`. */
  function MakeConfig(adminKeyEnv: Field, sign: Payload -> string): (cfg: Config)
    ensures cfg.adminKey != ""
    ensures Truthy(adminKeyEnv) ==> cfg.adminKey == adminKeyEnv.value
    ensures !Truthy(adminKeyEnv) ==> cfg.adminKey == DefaultAdminKey
    ensures cfg.sign == sign
  {
    Config(OrElse(adminKeyEnv, DefaultAdminKey), sign)
  }

  /** One entry of the webhook's `items` array. */
  datatype Item = Item(licenseKey: Field, productId: Field, productName: Field)

  /** The parsed body of a Payhip webhook; an absent `items` is an empty sequence. */
  datatype Payload = Payload(signature: Field, email: Field, items: seq<Item>)

  /** The in-memory store and the persisted snapshot. */
  datatype Server = Server(mem: Licenses, disk: Licenses)

  /** The JSON body of a response. */
  datatype Body =
    | Reply(success: bool, message: Field, license: Option<License>)
    | Dump(store: Licenses)

  datatype Response = Response(status: int, body: Body)

  /** The outcome of one handler: what it answers and the state it leaves. */
  datatype Step = Step(response: Response, next: Server)

  /** Every request the server routes to a handler. `now` is the time the
      webhook stamps on the record it writes. */
  datatype Request =
    | PayhipWebhook(payload: Payload, now: string)
    | ValidateLicense(licenseKey: Field)
    | ListLicenses(key: Field)
    | ClearLicenses(key: Field)
    | TestBackup(key: Field)

  /** The persisted snapshot holds exactly what memory holds. */
  predicate Synced(s: Server) {
    s.disk == s.mem
  }

  /** The invariant every handler keeps. */
  predicate Good(s: Server) {
    Valid(s.mem) && Synced(s)
  }

  /** Server start-up: load the license file when one exists, otherwise start
      from the empty store and write it out. */
  function Boot(file: Option<Licenses>): (s: Server)
    ensures Synced(s)
    ensures file.None? ==> s.mem == Empty && Good(s)
    ensures file.Some? ==> s.mem == file.value
    ensures Good(s) <==> (file.None? || Valid(file.value))
  {
    match file
    case Some(stored) => Server(stored, stored)
    case None => Server(Empty, Empty)
  }

  /** `saveLicenses()`: the file is rewritten with the whole of memory, so a
      restart right after it loads exactly the store that was saved. */
  function Save(mem: Licenses): (s: Server)
    ensures Synced(s) && s.mem == mem
    ensures Boot(Some(s.disk)) == s
  {
    Server(mem, mem)
  }

  function Ok(body: Body): Response {
    Response(200, body)
  }

  // ---------------------------------------------------------------- webhook

  /** `verifyPayhipSignature(body, signature)` guarded by `!signature`. */
  predicate SignatureOk(cfg: Config, p: Payload) {
    Truthy(p.signature) && StrictEquals(p.signature, cfg.sign(p))
  }

  /** `items?.[0]` exists and carries a truthy `license_key` and `product_id`. */
  predicate PayloadOk(p: Payload) {
    |p.items| > 0 && Truthy(p.items[0].licenseKey) && Truthy(p.items[0].productId)
  }

  /** The record a well-formed webhook writes: it always starts unactivated. */
  function NewLicense(p: Payload, now: string): (rec: License)
    requires PayloadOk(p)
    ensures !rec.activated && rec.createdAt == now
    ensures rec.productId == p.items[0].productId.value && rec.productId != ""
    ensures rec.productName == p.items[0].productName && rec.buyerEmail == p.email
  {
    var item := p.items[0];
    License(item.productId.value, item.productName, p.email, false, now)
  }

  /** POST /webhook/payhip. */
  function Webhook(cfg: Config, s: Server, p: Payload, now: string): (out: Step)
    ensures out.response.status == 403 <==> !SignatureOk(cfg, p)
    ensures out.response.status == 400 <==> SignatureOk(cfg, p) && !PayloadOk(p)
    ensures out.response.status == 200 <==> SignatureOk(cfg, p) && PayloadOk(p)
    ensures out.response.body.Reply? && (out.response.body.success <==> out.response.status == 200)
    ensures out.response.status != 200 ==> out.next == s
    ensures out.response.status == 200 ==>
      var key := p.items[0].licenseKey.value;
      && Good(out.next)
      && key in out.next.mem.licenses
      && out.next.mem.licenses[key] == NewLicense(p, now)
      && (forall k :: k != key ==> (k in out.next.mem.licenses <==> k in s.mem.licenses))
      && (forall k :: k != key && k in s.mem.licenses ==> out.next.mem.licenses[k] == s.mem.licenses[k])
  {
    if !SignatureOk(cfg, p) then
      Step(Response(403, Reply(false, Some("Invalid signature"), None)), s)
    else if !PayloadOk(p) then
      Step(Response(400, Reply(false, None, None)), s)
    else
      var mem := Put(s.mem, p.items[0].licenseKey.value, NewLicense(p, now));
      Step(Ok(Reply(true, None, None)), Save(mem))
  }

  // ------------------------------------------------------------- validation

  /** POST /validate_license: an own-key lookup in the store. */
  function Validate(s: Server, key: Field): (out: Step)
    ensures out.next == s
    ensures out.response.status == 400 <==> !Truthy(key)
    ensures out.response.status != 400 ==> out.response.status == 200
    ensures out.response.body.Reply?
    ensures out.response.body.success <==> Truthy(key) && key.value in s.mem.licenses
    ensures out.response.body.license.Some? <==> out.response.body.success
    ensures out.response.body.success ==> out.response.body.license.value == s.mem.licenses[key.value]
  {
    if !Truthy(key) then
      Step(Response(400, Reply(false, Some("Missing licenseKey"), None)), s)
    else if key.value in s.mem.licenses then
      Step(Ok(Reply(true, Some("License validated successfully"), Some(s.mem.licenses[key.value]))), s)
    else
      Step(Ok(Reply(false, Some("Invalid license"), None)), s)
  }

  // ----------------------------------------------------------------- admin

  /** `req.query.key === ADMIN_KEY`. */
  predicate Authorized(cfg: Config, key: Field) {
    StrictEquals(key, cfg.adminKey)
  }

  const Unauthorized: Response := Response(403, Reply(false, Some("Unauthorized"), None))

  /** GET /admin/licenses: the whole store, read-only. */
  function ListAll(cfg: Config, s: Server, key: Field): (out: Step)
    ensures out.next == s
    ensures out.response.status == 403 <==> !Authorized(cfg, key)
    ensures Authorized(cfg, key) ==> out.response == Response(200, Dump(s.mem))
  {
    if !Authorized(cfg, key) then Step(Unauthorized, s)
    else Step(Ok(Dump(s.mem)), s)
  }

  /** POST /admin/clear: replace the store by the empty one and save it. */
  function ClearAll(cfg: Config, s: Server, key: Field): (out: Step)
    ensures out.response.status == 403 <==> !Authorized(cfg, key)
    ensures !Authorized(cfg, key) ==> out.next == s
    ensures Authorized(cfg, key) ==>
      && out.response.status == 200
      && out.next.mem.licenses == map[] && out.next.mem.count == 0
      && Good(out.next)
  {
    if !Authorized(cfg, key) then Step(Unauthorized, s)
    else Step(Ok(Reply(true, Some("All licenses cleared"), None)), Save(Empty))
  }

  /** POST /admin/test-backup: save the store as it is. */
  function BackupNow(cfg: Config, s: Server, key: Field): (out: Step)
    ensures out.response.status == 403 <==> !Authorized(cfg, key)
    ensures !Authorized(cfg, key) ==> out.next == s
    ensures out.next.mem == s.mem
    ensures Authorized(cfg, key) ==> out.response.status == 200 && Synced(out.next)
  {
    if !Authorized(cfg, key) then Step(Unauthorized, s)
    else Step(Ok(Reply(true, Some("Local backup saved"), None)), Save(s.mem))
  }

  // ---------------------------------------------------------------- routing

  /** The requests whose handler may call `saveLicenses`. */
  predicate MaySave(r: Request) {
    r.PayhipWebhook? || r.ClearLicenses? || r.TestBackup?
  }

  /** The requests whose handler may change the in-memory store. */
  predicate MayWrite(r: Request) {
    r.PayhipWebhook? || r.ClearLicenses?
  }

  /** Dispatch a request to its handler. */
  function Handle(cfg: Config, s: Server, r: Request): (out: Step)
    ensures Good(s) ==> Good(out.next)
    ensures Valid(s.mem) ==> Valid(out.next.mem)
    ensures !MayWrite(r) ==> out.next.mem == s.mem
    ensures !MaySave(r) ==> out.next == s
    ensures out.response.status != 200 ==> out.next == s
    ensures out.next.disk != s.disk ==> Synced(out.next)
  {
    match r
    case PayhipWebhook(p, now) => Webhook(cfg, s, p, now)
    case ValidateLicense(k) => Validate(s, k)
    case ListLicenses(k) => ListAll(cfg, s, k)
    case ClearLicenses(k) => ClearAll(cfg, s, k)
    case TestBackup(k) => BackupNow(cfg, s, k)
  }

  /** The state after handling a sequence of requests in order. */
  function Run(cfg: Config, s: Server, rs: seq<Request>): Server
    decreases |rs|
  {
    if rs == [] then s else Run(cfg, Handle(cfg, s, rs[0]).next, rs[1..])
  }
}
