/**
 src/auth/mod.rs: the user database, and authentication requests (section 5 of RFC 4252)
 whose layout behind the method name depends on the method.
 */
module Auth {
  import opened Bytes
  import opened Wire
  import opened Packets

  const SERVICE_REQUEST: byte := 5
  const SERVICE_ACCEPT: byte := 6
  const USERAUTH_REQUEST: byte := 50
  const USERAUTH_FAILURE: byte := 51
  const USERAUTH_SUCCESS: byte := 52

  datatype Credential =
    | Password(password: str)
    | PublicKey(algorithm: str, keyBlob: bytes, signature: Option<bytes>)

  datatype AuthRequest = AuthRequest(username: str, service: str, authMethod: str, credential: Credential)

  // ---------------------------------------------------------------- the database

  datatype Db = Db(passwords: map<str, str>, publicKeys: map<str, seq<bytes>>) {
    predicate VerifyPassword(user: str, password: str) {
      user in passwords && passwords[user] == password
    }

    predicate IsKeyAuthorized(user: str, keyBlob: bytes) {
      user in publicKeys && keyBlob in publicKeys[user]
    }

    /** Whether the server answers a request with success. */
    predicate Accepts(r: AuthRequest) {
      match r.credential
      case Password(p) => VerifyPassword(r.username, p)
      case PublicKey(_, k, _) => IsKeyAuthorized(r.username, k)
    }
  }

  class UserDatabase {
    var passwords: map<str, str>
    var publicKeys: map<str, seq<bytes>>

    function Value(): Db reads this { Db(passwords, publicKeys) }

    constructor ()
      ensures Value() == Db(map[], map[])
    {
      passwords, publicKeys := map[], map[];
    }

    /** The user's password is replaced; nobody else's answer changes. */
    method AddPasswordUser(user: str, password: str)
      modifies this
      ensures publicKeys == old(publicKeys)
      ensures forall u: str, p: str ::
                Value().VerifyPassword(u, p) <==> if u == user then p == password else old(Value()).VerifyPassword(u, p)
    {
      passwords := passwords[user := password];
    }

    /** The key is added to the user's; every answer that was yes stays yes. */
    method AddPublicKey(user: str, keyBlob: bytes)
      modifies this
      ensures passwords == old(passwords)
      ensures forall u: str, k: bytes ::
                Value().IsKeyAuthorized(u, k) <==> (u == user && k == keyBlob) || old(Value()).IsKeyAuthorized(u, k)
    {
      var list := if user in publicKeys then publicKeys[user] else [];
      publicKeys := publicKeys[user := list + [keyBlob]];
    }
  }

  // ---------------------------------------------------------------- building

  function PasswordPayload(user: str, service: str, password: str): bytes {
    EncString(user) + EncString(service) + EncString(Ascii("password")) + EncBool(false) + EncString(password)
  }

  function EncOptional(s: Option<bytes>): bytes { if s.Some? then EncString(s.value) else [] }

  function PubkeyPayload(user: str, service: str, algorithm: str, keyBlob: bytes, signature: Option<bytes>): bytes {
    EncString(user) + EncString(service) + EncString(Ascii("publickey")) + EncBool(signature.Some?)
    + EncString(algorithm) + EncString(keyBlob) + EncOptional(signature)
  }

  method BuildPasswordAuthRequest(user: str, service: str, password: str) returns (p: Packet)
    ensures p == Packet(USERAUTH_REQUEST, PasswordPayload(user, service, password))
  {
    var buf := new Buffer();
    buf.WriteString(user);
    assert buf.data == EncString(user);
    buf.WriteString(service);
    buf.WriteString(Ascii("password"));
    buf.WriteBool(false);
    buf.WriteString(password);
    p := Packet(USERAUTH_REQUEST, buf.data);
  }

  method BuildPubkeyAuthRequest(user: str, service: str, algorithm: str, keyBlob: bytes, signature: Option<bytes>)
    returns (p: Packet)
    ensures p == Packet(USERAUTH_REQUEST, PubkeyPayload(user, service, algorithm, keyBlob, signature))
  {
    hide EncString, Ascii;
    var buf := new Buffer();
    buf.WriteString(user);
    assert buf.data == EncString(user);
    buf.WriteString(service);
    buf.WriteString(Ascii("publickey"));
    buf.WriteBool(signature.Some?);
    buf.WriteString(algorithm);
    buf.WriteString(keyBlob);
    if signature.Some? {
      buf.WriteString(signature.value);
    } else {
      assert buf.data + [] == buf.data;
    }
    p := Packet(USERAUTH_REQUEST, buf.data);
  }

  function AuthFailure(): Packet {
    Packet(USERAUTH_FAILURE, EncNameList([Ascii("password"), Ascii("publickey")]) + EncBool(false))
  }

  const AUTH_SUCCESS := Packet(USERAUTH_SUCCESS, [])

  function ServiceRequest(name: str): Packet { Packet(SERVICE_REQUEST, EncString(name)) }

  function ServiceAccept(name: str): Packet { Packet(SERVICE_ACCEPT, EncString(name)) }

  // ---------------------------------------------------------------- parsing

  function ParseCredential(authMethod: str, b: bytes): Result<Credential> {
    if authMethod == Ascii("password") then
      var change :- TakeBool(b);
      var password :- TakeUtf8(change.rest);
      Ok(Password(password.value))
    else if authMethod == Ascii("publickey") then
      var hasSig :- TakeBool(b);
      var algorithm :- TakeUtf8(hasSig.rest);
      var blob :- TakeString(algorithm.rest);
      if hasSig.value then
        var sig :- TakeString(blob.rest);
        Ok(PublicKey(algorithm.value, blob.value, Some(sig.value)))
      else Ok(PublicKey(algorithm.value, blob.value, None))
    else Err(AuthFailed("Unsupported auth method"))
  }

  function ParseAuthRequest(payload: bytes): Result<AuthRequest> {
    var user :- TakeUtf8(payload);
    var service :- TakeUtf8(user.rest);
    var authMethod :- TakeUtf8(service.rest);
    var credential :- ParseCredential(authMethod.value, authMethod.rest);
    Ok(AuthRequest(user.value, service.value, authMethod.value, credential))
  }

  method ReadCredential(cursor: Cursor, authMethod: str) returns (r: Result<Credential>)
    requires cursor.Valid()
    modifies cursor
    ensures r == ParseCredential(authMethod, old(cursor.Rest()))
  {
    hide TakeString, TakeUtf8, Ascii;
    if authMethod == Ascii("password") {
      var change :- cursor.ReadBool();
      var password :- cursor.ReadUtf8();
      r := Ok(Password(password));
    } else if authMethod == Ascii("publickey") {
      var hasSig :- cursor.ReadBool();
      var algorithm :- cursor.ReadUtf8();
      var keyBlob :- cursor.ReadString();
      var signature := None;
      if hasSig {
        var sig :- cursor.ReadString();
        signature := Some(sig);
      }
      r := Ok(PublicKey(algorithm, keyBlob, signature));
    } else {
      r := Err(AuthFailed("Unsupported auth method"));
    }
  }

  method Parse(payload: bytes) returns (r: Result<AuthRequest>)
    ensures r == ParseAuthRequest(payload)
  {
    hide TakeUtf8, ParseCredential;
    var cursor := new Cursor(payload);
    var user :- cursor.ReadUtf8();
    var service :- cursor.ReadUtf8();
    var authMethod :- cursor.ReadUtf8();
    var credential :- ReadCredential(cursor, authMethod);
    r := Ok(AuthRequest(user, service, authMethod, credential));
  }

  // ---------------------------------------------------------------- round trips

  lemma HeaderParses(user: str, service: str, authMethod: str, tail: bytes)
    requires Readable(user) && Readable(service) && Readable(authMethod)
    ensures var b := EncString(user) + EncString(service) + EncString(authMethod) + tail;
            && TakeUtf8(b).Ok? && TakeUtf8(b).value.value == user
            && var b1 := TakeUtf8(b).value.rest;
            && TakeUtf8(b1).Ok? && TakeUtf8(b1).value.value == service
            && var b2 := TakeUtf8(b1).value.rest;
            && TakeUtf8(b2) == Ok(Parsed(authMethod, tail))
  {
    hide EncString, TakeUtf8;
    var b2 := EncString(authMethod) + tail;
    var b1 := EncString(service) + b2;
    var b := EncString(user) + EncString(service) + EncString(authMethod) + tail;
    assert b == EncString(user) + b1;
    TakeUtf8Inverts(b, user, b1);
    TakeUtf8Inverts(b1, service, b2);
    TakeUtf8Inverts(b2, authMethod, tail);
  }

  /** A built password request parses to the fields it was built from, whatever follows it. */
  lemma PasswordRoundTrip(user: str, service: str, password: str, trailing: bytes)
    requires Readable(user) && Readable(service) && Readable(password)
    ensures ParseAuthRequest(PasswordPayload(user, service, password) + trailing)
         == Ok(AuthRequest(user, service, Ascii("password"), Password(password)))
  {
    hide EncString, TakeUtf8;
    var b1 := EncString(password) + trailing;
    var tail := EncBool(false) + b1;
    var b := PasswordPayload(user, service, password) + trailing;
    var head := EncString(user) + EncString(service) + EncString(Ascii("password"));
    assert b == head + EncBool(false) + b1 == head + tail;
    HeaderParses(user, service, Ascii("password"), tail);
    TakeBoolInverts(tail, false, b1);
    TakeUtf8Inverts(b1, password, trailing);
  }

  lemma PubkeyTailParses(algorithm: str, keyBlob: bytes, signature: Option<bytes>, trailing: bytes)
    requires Readable(algorithm) && Readable(keyBlob) && (signature.Some? ==> Readable(signature.value))
    ensures ParseCredential(Ascii("publickey"), EncBool(signature.Some?)
              + (EncString(algorithm) + (EncString(keyBlob) + (EncOptional(signature) + trailing))))
         == Ok(PublicKey(algorithm, keyBlob, signature))
  {
    hide EncString, TakeUtf8, TakeString;
    assert |Ascii("publickey")| != |Ascii("password")|;
    var sig := EncOptional(signature);
    var b2 := EncString(keyBlob) + (sig + trailing);
    var b1 := EncString(algorithm) + b2;
    TakeBoolInverts(EncBool(signature.Some?) + b1, signature.Some?, b1);
    TakeUtf8Inverts(b1, algorithm, b2);
    TakeStringInverts(b2, keyBlob, sig + trailing);
    if signature.Some? {
      TakeStringInverts(sig + trailing, signature.value, trailing);
    }
  }

  lemma Regroup(a: bytes, b: bytes, c: bytes, d: bytes, e: bytes, f: bytes)
    ensures a + b + c + d + e + f == a + (b + (c + (d + (e + f))))
  {
    assert a + b + c + d + e + f == a + b + c + d + (e + f);
    assert a + b + c + d + (e + f) == a + b + c + (d + (e + f));
    assert a + b + c + (d + (e + f)) == a + b + (c + (d + (e + f)));
  }

  lemma PubkeyRoundTrip(user: str, service: str, algorithm: str, keyBlob: bytes, signature: Option<bytes>,
                        trailing: bytes)
    requires Readable(user) && Readable(service) && Readable(algorithm) && Readable(keyBlob)
    requires signature.Some? ==> Readable(signature.value)
    ensures ParseAuthRequest(PubkeyPayload(user, service, algorithm, keyBlob, signature) + trailing)
         == Ok(AuthRequest(user, service, Ascii("publickey"), PublicKey(algorithm, keyBlob, signature)))
  {
    hide EncString, TakeUtf8, ParseCredential;
    var sig := EncOptional(signature);
    var tail := EncBool(signature.Some?) + (EncString(algorithm) + (EncString(keyBlob) + (sig + trailing)));
    Regroup(EncString(user) + EncString(service) + EncString(Ascii("publickey")),
      EncBool(signature.Some?), EncString(algorithm), EncString(keyBlob), sig, trailing);
    HeaderParses(user, service, Ascii("publickey"), tail);
    PubkeyTailParses(algorithm, keyBlob, signature, trailing);
  }

  // ---------------------------------------------------------------- which requests are granted

  /** A request as it lies on the wire. The flag may be any byte, and anything may follow. */
  datatype Login =
    | PasswordLogin(user: str, service: str, flag: byte, password: str, rest: bytes)
    | KeyLogin(user: str, service: str, flag: byte, algorithm: str, keyBlob: bytes, signature: Option<bytes>,
               rest: bytes)
  {
    function Method(): str { if PasswordLogin? then Ascii("password") else Ascii("publickey") }

    function Tail(): bytes {
      match this
      case PasswordLogin(_, _, _, password, rest) => EncString(password) + rest
      case KeyLogin(_, _, _, algorithm, keyBlob, signature, rest) =>
        EncString(algorithm) + (EncString(keyBlob) + (EncOptional(signature) + rest))
    }

    function Wire(): bytes { EncString(user) + (EncString(service) + (EncString(Method()) + ([flag] + Tail()))) }

    /** All fields are within the reader's limit, and a signature is there exactly if the flag says so. */
    predicate Sound() {
      && Readable(user) && Readable(service)
      && match this
         case PasswordLogin(_, _, _, password, _) => Readable(password)
         case KeyLogin(_, _, flag, algorithm, keyBlob, signature, _) =>
           && Readable(algorithm) && Readable(keyBlob)
           && (signature.Some? <==> flag != 0) && (signature.Some? ==> Readable(signature.value))
    }

    function Request(): AuthRequest {
      AuthRequest(user, service, Method(),
                  if PasswordLogin? then Password(password) else PublicKey(algorithm, keyBlob, signature))
    }

    /** The password is the user's, or the key is one of the user's. */
    predicate Holds(db: Db) {
      match this
      case PasswordLogin(user, _, _, password, _) => user in db.passwords && db.passwords[user] == password
      case KeyLogin(user, _, _, _, keyBlob, _, _) => user in db.publicKeys && keyBlob in db.publicKeys[user]
    }
  }

  lemma MethodsDiffer()
    ensures Ascii("publickey") != Ascii("password") && Readable(Ascii("password")) && Readable(Ascii("publickey"))
  {
    assert |Ascii("publickey")| != |Ascii("password")|;
  }

  lemma TailParses(l: Login)
    requires l.Sound()
    ensures ParseCredential(l.Method(), [l.flag] + l.Tail()) == Ok(l.Request().credential)
  {
    hide EncString, TakeUtf8, TakeString, TakeBool, Ascii;
    MethodsDiffer();
    TakeBoolIff([l.flag] + l.Tail(), l.flag != 0, l.Tail());
    match l {
      case PasswordLogin(_, _, _, password, rest) => TakeUtf8Iff(l.Tail(), password, rest);
      case KeyLogin(_, _, _, algorithm, keyBlob, signature, rest) =>
        var b := EncString(keyBlob) + (EncOptional(signature) + rest);
        TakeUtf8Iff(l.Tail(), algorithm, b);
        TakeStringIff(b, keyBlob, EncOptional(signature) + rest);
        if signature.Some? {
          TakeStringIff(EncOptional(signature) + rest, signature.value, rest);
        }
    }
  }

  lemma LoginParses(l: Login)
    requires l.Sound()
    ensures ParseAuthRequest(l.Wire()) == Ok(l.Request())
  {
    hide EncString, TakeUtf8, ParseCredential, Ascii, Login.Tail;
    MethodsDiffer();
    var b2 := EncString(l.Method()) + ([l.flag] + l.Tail());
    var b1 := EncString(l.service) + b2;
    TakeUtf8Iff(l.Wire(), l.user, b1);
    TakeUtf8Iff(b1, l.service, b2);
    TakeUtf8Iff(b2, l.Method(), [l.flag] + l.Tail());
    TailParses(l);
  }

  lemma CredentialIsTail(user: str, service: str, m: str, b: bytes) returns (l: Login)
    requires ParseCredential(m, b).Ok? && Readable(user) && Readable(service)
    ensures l.user == user && l.service == service && l.Sound() && l.Method() == m && [l.flag] + l.Tail() == b
    ensures ParseCredential(m, b) == Ok(l.Request().credential)
  {
    hide EncString, TakeUtf8, TakeString, TakeBool, Ascii;
    MethodsDiffer();
    var flag := TakeBool(b).value;
    TakeBoolIff(b, flag.value, flag.rest);
    if m == Ascii("password") {
      var password := TakeUtf8(flag.rest).value;
      TakeUtf8Iff(flag.rest, password.value, password.rest);
      l := PasswordLogin(user, service, b[0], password.value, password.rest);
    } else {
      var algorithm := TakeUtf8(flag.rest).value;
      TakeUtf8Iff(flag.rest, algorithm.value, algorithm.rest);
      var blob := TakeString(algorithm.rest).value;
      TakeStringIff(algorithm.rest, blob.value, blob.rest);
      if flag.value {
        var sig := TakeString(blob.rest).value;
        TakeStringIff(blob.rest, sig.value, sig.rest);
        l := KeyLogin(user, service, b[0], algorithm.value, blob.value, Some(sig.value), sig.rest);
      } else {
        l := KeyLogin(user, service, b[0], algorithm.value, blob.value, None, blob.rest);
        assert [] + blob.rest == blob.rest;
      }
    }
  }

  /** Whatever parses is such a request, byte for byte. */
  lemma ParsedIsLogin(payload: bytes) returns (l: Login)
    requires ParseAuthRequest(payload).Ok?
    ensures l.Sound() && l.Wire() == payload && ParseAuthRequest(payload) == Ok(l.Request())
  {
    hide EncString, TakeUtf8, ParseCredential, Ascii, Login.Tail, Login.Sound;
    var user := TakeUtf8(payload).value;
    TakeUtf8Iff(payload, user.value, user.rest);
    var service := TakeUtf8(user.rest).value;
    TakeUtf8Iff(user.rest, service.value, service.rest);
    var m := TakeUtf8(service.rest).value;
    TakeUtf8Iff(service.rest, m.value, m.rest);
    l := CredentialIsTail(user.value, service.value, m.value, m.rest);
  }

  /** The payload is a request in which a user of the database shows its password or one of its keys. */
  ghost predicate Proven(db: Db, payload: bytes) {
    exists l: Login :: l.Sound() && l.Wire() == payload && l.Holds(db)
  }

  /** What the database accepts is exactly that. */
  lemma AcceptedIff(db: Db, payload: bytes)
    ensures ParseAuthRequest(payload).Ok? && db.Accepts(ParseAuthRequest(payload).value) <==> Proven(db, payload)
  {
    hide ParseAuthRequest, Login.Wire, Login.Sound, Ascii;
    if ParseAuthRequest(payload).Ok? {
      var l := ParsedIsLogin(payload);
      assert db.Accepts(l.Request()) <==> l.Holds(db);
    }
    if Proven(db, payload) {
      var l: Login :| l.Sound() && l.Wire() == payload && l.Holds(db);
      LoginParses(l);
      assert db.Accepts(l.Request()) <==> l.Holds(db);
    }
  }

  /** A request by any other method is refused by name. */
  lemma OtherMethodsAreRefused(user: str, service: str, authMethod: str, tail: bytes)
    requires Readable(user) && Readable(service) && Readable(authMethod)
    requires authMethod != Ascii("password") && authMethod != Ascii("publickey")
    ensures ParseAuthRequest(EncString(user) + EncString(service) + EncString(authMethod) + tail)
         == Err(AuthFailed("Unsupported auth method"))
  {
    hide EncString, TakeUtf8, Ascii;
    HeaderParses(user, service, authMethod, tail);
  }

  /** The server's answers, read back: the methods that may go on, and the name of the service. */
  lemma AnswersReadBack(name: str)
    requires Readable(name)
    ensures TakeUtf8(ServiceAccept(name).payload) == Ok(Parsed(name, []))
    ensures TakeUtf8(ServiceRequest(name).payload) == Ok(Parsed(name, []))
    ensures TakeNameList(AuthFailure().payload) == Ok(Parsed([Ascii("password"), Ascii("publickey")], [0]))
  {
    hide EncString, TakeUtf8, TakeNameList, Ascii, Join;
    assert EncString(name) + [] == EncString(name);
    TakeUtf8Iff(EncString(name), name, []);
    var names := [Ascii("password"), Ascii("publickey")];
    MethodNames();
    NameListSurvivesIff(names, AuthFailure().payload, [0]);
  }

  lemma MethodNames()
    ensures var names := [Ascii("password"), Ascii("publickey")];
            CommaFree(names) && names != [[]] && |Join(names)| <= MAX_PACKET_SIZE
  {
    AsciiIsCommaFree("password");
    AsciiIsCommaFree("publickey");
    hide Ascii;
    var names := [Ascii("password"), Ascii("publickey")];
    assert names[1..] == [names[1]];
    assert |Join(names)| == 18;
  }
}
