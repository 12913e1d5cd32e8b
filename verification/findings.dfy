/** The store is a plain JavaScript object, so indexing it by a license key also
    sees what the object inherits through its prototype, and assigning to the
    key `"__proto__"` replaces that prototype instead of adding an entry. This
    module models the lookup and the webhook as written, on an object that
    carries its prototype, exhibits the inputs where they differ from an
    own-key store, and relates them to the corrected handlers in `Handlers`,
    which the rest of the model uses. */
module Findings {
  import opened Js
  import opened Store
  import opened Handlers

  /** The key whose assignment sets the prototype of a plain object. */
  const ProtoKey: string := "__proto__"

  /** The methods every plain object inherits from `Object.prototype`. */
  const InheritedMethods: set<string> := {
    "constructor", "hasOwnProperty", "isPrototypeOf", "propertyIsEnumerable",
    "toLocaleString", "toString", "valueOf",
    "__defineGetter__", "__defineSetter__", "__lookupGetter__", "__lookupSetter__"
  }

  /** The names a plain object inherits from `Object.prototype`: its methods and
      the `__proto__` accessor. Each reads as a truthy value. */
  const InheritedNames: set<string> := InheritedMethods + {ProtoKey}

  /** The own properties of a record the webhook writes, in the source's spelling. */
  const RecordFieldNames: set<string> := {
    "product_id", "product_name", "buyer_email", "activated", "createdAt"
  }

  /** The store object as JavaScript holds it: its own entries (the server
      state) and its prototype, `None` for `Object.prototype` and `Some(rec)`
      once a `"__proto__"` write has made a license record the prototype. A
      restart or an admin clear builds a fresh object, with `Object.prototype`. */
  datatype JsStore = JsStore(server: Server, proto: Option<License>)

  /** A truthy value read from the store object: a license record, a string
      field of a record, an inherited method, or `Object.prototype` itself. */
  datatype JsValue = Record(rec: License) | Text(text: string) | Method | PrototypeObject

  /** An own property of a license record serving as prototype, when truthy. */
  function RecordProperty(rec: License, name: string): Option<JsValue> {
    if name == "product_id" && rec.productId != "" then Some(Text(rec.productId))
    else if name == "product_name" && Truthy(rec.productName) then Some(Text(rec.productName.value))
    else if name == "buyer_email" && Truthy(rec.buyerEmail) then Some(Text(rec.buyerEmail.value))
    else if name == "createdAt" && rec.createdAt != "" then Some(Text(rec.createdAt))
    else None
  }

  /** `licenses.licenses[name]`: `Some` of the value when it is truthy, `None`
      when it is falsy or undefined. The lookup walks own entries, then the
      prototype's own properties, then `Object.prototype`. */
  function Get(o: JsStore, name: string): (v: Option<JsValue>)
    ensures name in o.server.mem.licenses ==> v == Some(Record(o.server.mem.licenses[name]))
    ensures name !in o.server.mem.licenses && o.proto.None? ==> (v.Some? <==> name in InheritedNames)
    ensures name !in o.server.mem.licenses && o.proto.None? && name == ProtoKey ==> v == Some(PrototypeObject)
    ensures name !in o.server.mem.licenses && o.proto.Some? && name == ProtoKey ==>
      v == Some(Record(o.proto.value))
    ensures name !in o.server.mem.licenses && name !in RecordFieldNames && name in InheritedMethods ==>
      v == Some(Method)
  {
    if name in o.server.mem.licenses then Some(Record(o.server.mem.licenses[name]))
    else match o.proto
      case Some(rec) =>
        if name in RecordFieldNames then RecordProperty(rec, name)
        else if name == ProtoKey then Some(Record(rec))
        else if name in InheritedMethods then Some(Method)
        else None
      case None =>
        if name == ProtoKey then Some(PrototypeObject)
        else if name in InheritedMethods then Some(Method)
        else None
  }

  /** The answer of the lookup as written. `license` is the value placed in the
      reply; `res.json` drops a `Method` and writes `PrototypeObject` as `{}`. */
  datatype WrittenReply = WrittenReply(status: int, success: bool, message: string, license: Option<JsValue>)

  /** POST /validate_license as written: it reads the store object and changes
      nothing; any truthy value found under the key counts as a license. */
  function ValidateAsWritten(o: JsStore, key: Field): (out: WrittenReply)
    ensures out.status == 400 <==> !Truthy(key)
    ensures out.status != 400 ==> out.status == 200
    ensures out.success <==> Truthy(key) && Get(o, key.value).Some?
    ensures out.success ==> out.license == Get(o, key.value)
    ensures !out.success ==> out.license.None?
    ensures Truthy(key) && key.value in o.server.mem.licenses ==>
      out.success && out.license == Some(Record(o.server.mem.licenses[key.value]))
    ensures o.proto.None? ==>
      (out.success <==> Truthy(key) && (key.value in o.server.mem.licenses || key.value in InheritedNames))
  {
    if !Truthy(key) then
      WrittenReply(400, false, "Missing licenseKey", None)
    else
      var found := Get(o, key.value);
      if found.Some? then WrittenReply(200, true, "License validated successfully", found)
      else WrittenReply(200, false, "Invalid license", None)
  }

  /** On a fresh, empty store, the license key "constructor" validates as
      written; the corrected lookup refuses it. */
  lemma ConstructorKeyValidates()
    ensures "constructor" !in Boot(None).mem.licenses
    ensures ValidateAsWritten(JsStore(Boot(None), None), Some("constructor")).success
    ensures !Validate(Boot(None), Some("constructor")).response.body.success
  {
  }

  /** The admin clear builds a fresh object, which still inherits from
      `Object.prototype`: as written, "constructor" validates right after an
      authorised clear, while the corrected lookup refuses every key. */
  lemma ClearKeepsInheritedNames(cfg: Config, s: Server, adminKey: Field)
    requires Authorized(cfg, adminKey)
    ensures ClearAll(cfg, s, adminKey).next.mem.licenses == map[]
    ensures ValidateAsWritten(JsStore(ClearAll(cfg, s, adminKey).next, None), Some("constructor")).success
    ensures !Validate(ClearAll(cfg, s, adminKey).next, Some("constructor")).response.body.success
  {
  }

  /** With the ordinary prototype, the two lookups disagree on success exactly
      for inherited names the store does not hold, and agree on the record
      whenever the corrected one succeeds. */
  lemma ValidateDiffersOnlyOnInheritedNames(s: Server, key: Field)
    ensures
      var written := ValidateAsWritten(JsStore(s, None), key);
      var fixed := Validate(s, key).response;
      && (written.success != fixed.body.success <==>
           Truthy(key) && key.value !in s.mem.licenses && key.value in InheritedNames)
      && written.status == fixed.status
      && (fixed.body.success ==> written.license == Some(Record(fixed.body.license.value)))
  {
  }

  /** The outcome of the webhook as written: its answer and the object after it. */
  datatype WrittenStep = WrittenStep(response: Response, next: JsStore)

  /** POST /webhook/payhip as written: when the object has no own `"__proto__"`
      entry, the assignment makes the record the object's prototype, so
      `Object.keys` does not count it and the saved file does not hold it, and
      the handler still answers success. Every other write is the corrected one. */
  function WebhookAsWritten(cfg: Config, o: JsStore, p: Payload, now: string): (out: WrittenStep)
    ensures out.response.status == 200 <==> SignatureOk(cfg, p) && PayloadOk(p)
    ensures out.response.status != 200 ==> out.next == o
    ensures out.response.status == 200 ==> Synced(out.next.server) && Valid(out.next.server.mem)
    ensures out.response.status == 200 && p.items[0].licenseKey.value == ProtoKey
            && ProtoKey !in o.server.mem.licenses ==>
      && out.next.server.mem.licenses == o.server.mem.licenses
      && out.next.proto == Some(NewLicense(p, now))
  {
    if SignatureOk(cfg, p) && PayloadOk(p) && p.items[0].licenseKey.value == ProtoKey
       && ProtoKey !in o.server.mem.licenses
    then
      var own := o.server.mem.licenses;
      WrittenStep(Ok(Reply(true, None, None)), JsStore(Save(Licenses(|own|, own)), Some(NewLicense(p, now))))
    else
      var step := Webhook(cfg, o.server, p, now);
      WrittenStep(step.response, JsStore(step.next, o.proto))
  }

  /** A signed webhook for license key "__proto__" is answered with success, but
      the record is neither an own key, nor counted, nor saved. Until the object
      is rebuilt it is served as the prototype: "__proto__" validates with it and
      so does "product_id". After a restart from the saved file it is gone. The
      corrected handler stores it as an ordinary entry. */
  lemma ProtoKeyAcceptedButNotStored(cfg: Config, o: JsStore, p: Payload, now: string)
    requires SignatureOk(cfg, p) && PayloadOk(p)
    requires p.items[0].licenseKey == Some(ProtoKey) && ProtoKey !in o.server.mem.licenses
    ensures
      var rec := NewLicense(p, now);
      var after := WebhookAsWritten(cfg, o, p, now);
      var restarted := JsStore(Boot(Some(after.next.server.disk)), None);
      && after.response == Response(200, Reply(true, None, None))
      && ProtoKey !in after.next.server.mem.licenses
      && ProtoKey !in after.next.server.disk.licenses
      && after.next.server.mem.count == |o.server.mem.licenses|
      && ValidateAsWritten(after.next, Some(ProtoKey)).license == Some(Record(rec))
      && ("product_id" !in o.server.mem.licenses ==> ValidateAsWritten(after.next, Some("product_id")).success)
      && ValidateAsWritten(restarted, Some(ProtoKey)).license == Some(PrototypeObject)
      && Webhook(cfg, o.server, p, now).next.mem.licenses[ProtoKey] == rec
  {
  }

  /** For every other request the webhook as written is the corrected one, and
      the prototype is left as it was. */
  lemma WebhookAgreesOffProtoKey(cfg: Config, o: JsStore, p: Payload, now: string)
    requires !PayloadOk(p) || p.items[0].licenseKey.value != ProtoKey || ProtoKey in o.server.mem.licenses
    ensures WebhookAsWritten(cfg, o, p, now).response == Webhook(cfg, o.server, p, now).response
    ensures WebhookAsWritten(cfg, o, p, now).next == JsStore(Webhook(cfg, o.server, p, now).next, o.proto)
  {
  }
}
