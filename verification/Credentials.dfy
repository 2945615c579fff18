/** How staging reads the registry credentials and the part selectors out of a request. */
module Credentials {
  import opened Base64
  import opened Text

  datatype AuthConfig = AuthConfig(username: Bytes, password: Bytes, auth: Bytes)

  datatype Credential = Credential(username: Bytes, password: Bytes)

  /** The secret ".dockerconfigjson": missing or empty, not JSON, or decoded to its `auths` table. */
  datatype DockerConfig = NoConfig | Malformed | Auths(auths: map<Bytes, AuthConfig>)

  datatype LoadError = DecodingConfig | DecodingAuth | BadFormat

  const COLON: byte := 58

  /** The credential one `auths` entry stands for; `auth` overrides the plain fields. */
  function ReadAuth(a: AuthConfig): Result<Credential, LoadError> {
    if a.auth == [] then Ok(Credential(a.username, a.password))
    else match Decode(a.auth)
      case None => Err(DecodingAuth)
      case Some(data) =>
        var parts := Split(data, COLON);
        if |parts| != 2 then Err(BadFormat) else Ok(Credential(parts[0], parts[1]))
  }

  /** An entry that names a user: no `auth`, or one that decodes to text with exactly one colon. */
  predicate WellFormed(a: AuthConfig) {
    a.auth == [] || (Decode(a.auth).Some? && Count(Decode(a.auth).value, COLON) == 1)
  }

  /** All entries of the configuration can be read. */
  predicate Loads(config: DockerConfig) {
    match config
    case NoConfig => true
    case Malformed => false
    case Auths(auths) => forall h :: h in auths ==> WellFormed(auths[h])
  }

  lemma ReadAuthSucceeds(a: AuthConfig)
    ensures ReadAuth(a).Ok? <==> WellFormed(a)
  {
    if a.auth != [] && Decode(a.auth).Some? {
      SplitPieces(Decode(a.auth).value, COLON);
    }
  }

  /** What is read from `auth` is the text before and after its only colon. */
  lemma ReadAuthSplitsAtColon(a: AuthConfig)
    requires a.auth != [] && WellFormed(a)
    ensures ReadAuth(a).Ok?
    ensures var c := ReadAuth(a).value;
      && Decode(a.auth) == Some(c.username + [COLON] + c.password)
      && COLON !in c.username && COLON !in c.password
  {
    var data := Decode(a.auth).value;
    SplitPieces(data, COLON);
    JoinOfSplit(data, COLON);
    var parts := Split(data, COLON);
    assert parts[1..] == [parts[1]];
    assert COLON !in parts[0] && COLON !in parts[1];
  }

  /**
   * What an entry stands for: without `auth` the plain user and password; otherwise the colon-free
   * user and password that `auth` encodes with a colon (character 58) between them.
   */
  lemma ReadAuthMeans(a: AuthConfig, c: Credential)
    ensures ReadAuth(a) == Ok(c) <==>
      if a.auth == [] then c.username == a.username && c.password == a.password
      else Decode(a.auth) == Some(c.username + [58] + c.password) && 58 !in c.username && 58 !in c.password
  {
    if a.auth != [] {
      if ReadAuth(a) == Ok(c) {
        ReadAuthSucceeds(a);
        ReadAuthSplitsAtColon(a);
      }
      if Decode(a.auth) == Some(c.username + [58] + c.password) && 58 !in c.username && 58 !in c.password {
        SplitFirst(c.username, c.password, COLON);
        SplitFree(c.password, COLON);
      }
    }
  }

  /** An entry is bad for one of two reasons: `auth` does not decode, or the text has not exactly one colon. */
  lemma ReadAuthFails(a: AuthConfig)
    ensures ReadAuth(a) == Err(DecodingAuth) <==> a.auth != [] && Decode(a.auth).None?
    ensures ReadAuth(a) == Err(BadFormat) <==> a.auth != [] && Decode(a.auth).Some? && Count(Decode(a.auth).value, 58) != 1
    ensures ReadAuth(a) != Err(DecodingConfig)
  {
    if a.auth != [] && Decode(a.auth).Some? {
      SplitPieces(Decode(a.auth).value, COLON);
    }
  }

  /** A colon-free user and password survive encoding and reading, whatever the plain fields say. */
  lemma CredentialRoundTrip(user: Bytes, password: Bytes, plainUser: Bytes, plainPassword: Bytes)
    requires COLON !in user && COLON !in password
    ensures ReadAuth(AuthConfig(plainUser, plainPassword, Encode(user + [COLON] + password))) == Ok(Credential(user, password))
  {
    var data := user + [COLON] + password;
    DecodeOfEncode(data, 0);
    SplitFirst(user, password, COLON);
    SplitFree(password, COLON);
  }

  /**
   * Fills the store from the table, visiting the hosts in any order. Whether it succeeds and what
   * the store then holds do not depend on that order; only which of several bad hosts is reported does.
   */
  method LoadCredentials(config: DockerConfig) returns (r: Result<map<Bytes, Credential>, LoadError>)
    ensures r.Ok? <==> Loads(config)
    ensures r.Ok? && config.NoConfig? ==> r.value == map[]
    ensures r.Ok? && config.Auths? ==> r.value.Keys == config.auths.Keys
    ensures r.Ok? && config.Auths? ==> forall h :: h in config.auths ==> ReadAuth(config.auths[h]) == Ok(r.value[h])
    ensures r.Ok? && config.Auths? ==> forall h :: h in config.auths && config.auths[h].auth == [] ==>
      r.value[h].username == config.auths[h].username && r.value[h].password == config.auths[h].password
    ensures r.Ok? && config.Auths? ==> forall h :: h in config.auths && config.auths[h].auth != [] ==>
      && Decode(config.auths[h].auth) == Some(r.value[h].username + [58] + r.value[h].password)
      && 58 !in r.value[h].username && 58 !in r.value[h].password
    ensures r.Err? && config.Malformed? ==> r.error == DecodingConfig
    ensures r.Err? && config.Auths? ==> exists h :: h in config.auths && ReadAuth(config.auths[h]) == Err(r.error)
  {
    var store: map<Bytes, Credential> := map[];
    match config {
      case NoConfig =>
      case Malformed => return Err(DecodingConfig);
      case Auths(auths) =>
        var left := auths.Keys;
        while left != {}
          invariant left <= auths.Keys
          invariant store.Keys == auths.Keys - left
          invariant forall h :: h in store ==> ReadAuth(auths[h]) == Ok(store[h]) && WellFormed(auths[h])
          decreases |left|
        {
          var host :| host in left;
          var authCfg := auths[host];
          var cred := Credential(authCfg.username, authCfg.password);
          ReadAuthSucceeds(authCfg);
          if authCfg.auth != [] {
            var data := Decode(authCfg.auth);
            if data.None? {
              return Err(DecodingAuth);
            }
            var parts := Split(data.value, COLON);
            if |parts| != 2 {
              return Err(BadFormat);
            }
            cred := cred.(username := parts[0]);
            cred := cred.(password := parts[1]);
          }
          store := store[host := cred];
          left := left - {host};
        }
        forall h | h in auths
          ensures ReadAuth(auths[h]) == Ok(store[h])
          ensures auths[h].auth == [] ==> store[h].username == auths[h].username && store[h].password == auths[h].password
          ensures auths[h].auth != [] ==>
            && Decode(auths[h].auth) == Some(store[h].username + [58] + store[h].password)
            && 58 !in store[h].username && 58 !in store[h].password
        {
          ReadAuthMeans(auths[h], store[h]);
        }
    }
    return Ok(store);
  }

  /** The label selectors of a volume context: none when the key is missing. */
  function Selectors(context: map<string, string>): seq<string> {
    if "selector" in context then Split(context["selector"], '|') else []
  }

  /** Selectors written with `|` between them are read back one by one; the text is recovered from them. */
  lemma SelectorRoundTrip(context: map<string, string>, labels: seq<string>)
    requires |labels| >= 1 && forall i :: 0 <= i < |labels| ==> '|' !in labels[i]
    ensures Selectors(context["selector" := Join(labels, '|')]) == labels
  {
    SplitOfJoin(labels, '|');
  }

  lemma SelectorsDetermineText(context: map<string, string>)
    ensures Selectors(context) == [] <==> "selector" !in context
    ensures "selector" in context ==> Join(Selectors(context), '|') == context["selector"]
    ensures forall i :: 0 <= i < |Selectors(context)| ==> '|' !in Selectors(context)[i]
  {
    if "selector" in context {
      JoinOfSplit(context["selector"], '|');
      SplitPieces(context["selector"], '|');
    }
  }
}
