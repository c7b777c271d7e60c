/**
 Event payloads and the field encryption that protects them between the outbox relay
 (backend/outbox_service.py) and the ClickHouse consumer (backend/security_utils.py).

 A payload is a JSON object.  Python's dictionaries become maps; every JSON value that the
 two functions never look inside (numbers, booleans, lists) is a leaf.
 */
module Payloads {
  import opened Wrappers

  datatype Json =
    | Null
    | Num(n: int)
    | Str(s: string)
    | Arr(items: seq<Json>)
    | Obj(fields: map<string, Json>)

  /** What the services know from their settings and libraries: the cipher built from the shared key, with
      `dec` failing on anything that is not a token of that key, and the ISO timestamp printer and parser. */
  datatype Codec = Codec(
    enc: string -> string,
    dec: string -> Option<string>,
    iso: int -> string,
    time: Json -> Option<int>)

  /** Fernet's law: decrypting what was encrypted under the same key gives it back. */
  ghost predicate Lawful(c: Codec) {
    forall v: string :: c.dec(c.enc(v)) == Some(v)
  }

  /** Every printed timestamp can be parsed (possibly to a coarser time). */
  ghost predicate TimesParse(c: Codec) {
    forall t: int :: c.time(Str(c.iso(t))).Some?
  }

  const SENSITIVE_FIELDS := {
    "sender_email", "recipient_email", "target_email", "email",
    "first_name", "last_name", "ip", "user_agent"
  }

  const PREFIX := "enc_"

  predicate HasPrefix(s: string) {
    |s| >= 4 && s[..4] == PREFIX
  }

  function EncryptField(c: Codec, k: string, v: Json): Json
    decreases v
  {
    if k in SENSITIVE_FIELDS && v.Str? && v.s != "" then Str(PREFIX + c.enc(v.s))
    else if v.Obj? then Obj(map k' | k' in v.fields :: EncryptField(c, k', v.fields[k']))
    else v
  }

  function Encrypt(c: Codec, p: map<string, Json>): map<string, Json> {
    map k | k in p :: EncryptField(c, k, p[k])
  }

  function DecryptField(c: Codec, k: string, v: Json): Json
    decreases v
  {
    if k in SENSITIVE_FIELDS && v.Str? && HasPrefix(v.s) then
      match c.dec(v.s[4..])
      case Some(plain) => Str(plain)
      case None => v
    else if v.Obj? then Obj(map k' | k' in v.fields :: DecryptField(c, k', v.fields[k']))
    else v
  }

  function Decrypt(c: Codec, p: map<string, Json>): map<string, Json> {
    map k | k in p :: DecryptField(c, k, p[k])
  }

  /** The relay's loop over a copy of the payload. */
  method EncryptPayload(c: Codec, payload: map<string, Json>) returns (r: map<string, Json>)
    ensures r == Encrypt(c, payload)
    decreases Obj(payload)
  {
    r := payload;
    var todo := payload.Keys;
    while todo != {}
      invariant todo <= payload.Keys && r.Keys == payload.Keys
      invariant forall k :: k in todo ==> r[k] == payload[k]
      invariant forall k :: k in payload && k !in todo ==> r[k] == EncryptField(c, k, payload[k])
      decreases |todo|
    {
      var k :| k in todo;
      var v := payload[k];
      if k in SENSITIVE_FIELDS && v.Str? && v.s != "" {
        r := r[k := Str(PREFIX + c.enc(v.s))];
      } else if v.Obj? {
        var inner := EncryptPayload(c, v.fields);
        r := r[k := Obj(inner)];
      }
      todo := todo - {k};
    }
  }

  /** The consumer's loop over a copy of the payload; a field that fails to decrypt is left as it is. */
  method DecryptPayload(c: Codec, payload: map<string, Json>) returns (r: map<string, Json>)
    ensures r == Decrypt(c, payload)
    decreases Obj(payload)
  {
    r := payload;
    var todo := payload.Keys;
    while todo != {}
      invariant todo <= payload.Keys && r.Keys == payload.Keys
      invariant forall k :: k in todo ==> r[k] == payload[k]
      invariant forall k :: k in payload && k !in todo ==> r[k] == DecryptField(c, k, payload[k])
      decreases |todo|
    {
      var k :| k in todo;
      var v := payload[k];
      if k in SENSITIVE_FIELDS && v.Str? && HasPrefix(v.s) {
        match c.dec(v.s[4..])
        case Some(plain) => r := r[k := Str(plain)];
        case None =>
      } else if v.Obj? {
        var inner := DecryptPayload(c, v.fields);
        r := r[k := Obj(inner)];
      }
      todo := todo - {k};
    }
  }

  lemma {:induction false} FieldRoundTrip(c: Codec, k: string, v: Json)
    requires Lawful(c)
    ensures DecryptField(c, k, EncryptField(c, k, v)) == v
    decreases v
  {
    if k in SENSITIVE_FIELDS && v.Str? && v.s != "" {
      assert (PREFIX + c.enc(v.s))[4..] == c.enc(v.s);
    } else if v.Obj? {
      forall k' | k' in v.fields
        ensures DecryptField(c, k', EncryptField(c, k', v.fields[k'])) == v.fields[k']
      {
        FieldRoundTrip(c, k', v.fields[k']);
      }
    }
  }

  /** Decrypting what the relay encrypted gives the payload back: nested dictionaries, empty strings,
      values that already start with the marker, and sensitive keys that hold dictionaries included. */
  lemma RoundTrip(c: Codec, p: map<string, Json>)
    requires Lawful(c)
    ensures Decrypt(c, Encrypt(c, p)) == p
  {
    forall k | k in p
      ensures DecryptField(c, k, EncryptField(c, k, p[k])) == p[k]
    {
      FieldRoundTrip(c, k, p[k]);
    }
  }

  /** What becomes of one string: under the eight sensitive names, and nowhere else, a non-empty one is encrypted behind
      the marker, and one behind the marker is decrypted if it can be. */
  lemma StringsExactly(c: Codec, k: string, s: string)
    ensures var sensitive := k in {"sender_email", "recipient_email", "target_email", "email",
                                   "first_name", "last_name", "ip", "user_agent"};
      && EncryptField(c, k, Str(s)) == Str(if sensitive && s != "" then "enc_" + c.enc(s) else s)
      && DecryptField(c, k, Str(s)) ==
           Str(if sensitive && "enc_" <= s && c.dec(s[4..]).Some? then c.dec(s[4..]).value else s)
  {
  }

  /** No two payloads travel as the same message. */
  lemma EncryptInjective(c: Codec, p: map<string, Json>, q: map<string, Json>)
    requires Lawful(c) && Encrypt(c, p) == Encrypt(c, q)
    ensures p == q
  {
    RoundTrip(c, p);
    RoundTrip(c, q);
  }

  /** Every non-empty string under a sensitive name carries the marker, at any depth of dictionaries and lists; a list
      under a sensitive name holds sensitive values. */
  ghost predicate Sealed(k: string, v: Json)
    decreases v
  {
    match v
    case Str(s) => k in SENSITIVE_FIELDS ==> s == "" || HasPrefix(s)
    case Obj(fields) => forall k' :: k' in fields ==> Sealed(k', fields[k'])
    case Arr(items) => forall i :: 0 <= i < |items| ==> Sealed(k, items[i])
    case _ => true
  }

  /** The lists that nested dictionaries lead to hold nothing unmarked. */
  ghost predicate ListsSealed(k: string, v: Json)
    decreases v
  {
    match v
    case Obj(fields) => forall k' :: k' in fields ==> ListsSealed(k', fields[k'])
    case Arr(items) => Sealed(k, v)
    case _ => true
  }

  /** What leaves the relay is sealed at every depth if and only if its lists already were: encryption goes down nested
      dictionaries and stops at lists.  It keeps the dictionary shape. */
  lemma {:induction false} EncryptSeals(c: Codec, k: string, v: Json)
    ensures Sealed(k, EncryptField(c, k, v)) <==> ListsSealed(k, v)
    ensures v.Obj? <==> EncryptField(c, k, v).Obj?
    ensures v.Obj? ==> EncryptField(c, k, v).fields.Keys == v.fields.Keys
    decreases v
  {
    if k in SENSITIVE_FIELDS && v.Str? && v.s != "" {
      assert (PREFIX + c.enc(v.s))[..4] == PREFIX;
    } else if v.Obj? {
      forall k' | k' in v.fields
        ensures Sealed(k', EncryptField(c, k', v.fields[k'])) <==> ListsSealed(k', v.fields[k'])
      {
        EncryptSeals(c, k', v.fields[k']);
      }
      var sealedFields := EncryptField(c, k, v).fields;
      assert forall k' :: k' in v.fields ==> sealedFields[k'] == EncryptField(c, k', v.fields[k']);
      assert Sealed(k, Obj(sealedFields)) <==> forall k' :: k' in sealedFields ==> Sealed(k', sealedFields[k']);
      assert ListsSealed(k, v) <==> forall k' :: k' in v.fields ==> ListsSealed(k', v.fields[k']);
    }
  }

  /** A payload without lists is sealed. */
  ghost predicate NoLists(v: Json)
    decreases v
  {
    !v.Arr? && (v.Obj? ==> forall k' :: k' in v.fields ==> NoLists(v.fields[k']))
  }

  lemma {:induction false} NoListsAreSealed(k: string, v: Json)
    requires NoLists(v)
    ensures ListsSealed(k, v)
    decreases v
  {
    if v.Obj? {
      forall k' | k' in v.fields
        ensures ListsSealed(k', v.fields[k'])
      {
        NoListsAreSealed(k', v.fields[k']);
      }
    }
  }
}
