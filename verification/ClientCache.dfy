/** internal/controller/apiclient.go: the client cache and its key. A call reads the credential Secret, turns
    the Tunnel into a config and a key, and serves the client kept under that key or builds one. */
module ClientCache {
  import opened Base
  import opened Strings

  datatype CredentialsRef = CredentialsRef(name: string, clientIDKey: string, clientSecretKey: string)
  datatype Endpoints = Endpoints(tokenURL: string, api: string, projectID: string)
  datatype TunnelRef = TunnelRef(namespace: string, credentials: CredentialsRef, endpoints: Option<Endpoints>)

  /** A Secret as read: its resource version and its data. */
  datatype Credential = Credential(resourceVersion: string, data: map<string, string>)

  datatype Config = Config(
    clientID: string, clientSecret: string, tokenURL: string, endpoint: string, projectID: string, userAgent: string)

  datatype ConfigError = SecretUnreadable | NoClientID | NoClientSecret
  datatype Result<T> = Ok(value: T) | Err(error: ConfigError)

  /** A client is what it was built from, and which build it was. */
  datatype Client = Client(config: Config, build: nat)

  /** One call: the Tunnel, and what reading its Secret answers at that moment. */
  datatype Request = Request(tunnel: TunnelRef, credential: Option<Credential>)

  function IDKey(ref: CredentialsRef): string {
    if ref.clientIDKey == "" then "client_id" else ref.clientIDKey
  }

  function SecretKey(ref: CredentialsRef): string {
    if ref.clientSecretKey == "" then "client_secret" else ref.clientSecretKey
  }

  /** A missing entry of the Secret reads as empty. */
  function Entry(c: Credential, key: string): string {
    if key in c.data then c.data[key] else ""
  }

  // ---------------------------------------------------------------- the key

  datatype Key = Key(namespace: string, name: string, version: string, tokenURL: string, api: string, projectID: string)

  function Printed(k: Key): string {
    k.namespace + "/" + k.name + "@" + k.version + "|" + k.tokenURL + "|" + k.api + "|" + k.projectID
  }

  /** The part of the key that is printed from the endpoint fields. */
  function PrintedEnds(k: Key): string {
    k.tokenURL + "|" + k.api + "|" + k.projectID
  }

  /** Object names and resource versions hold none of these characters. */
  predicate PlainNames(k: Key) {
    '/' !in k.namespace && '@' !in k.name && '|' !in k.version
  }

  /** URLs should not hold the last one. */
  predicate Plain(k: Key) {
    PlainNames(k) && '|' !in k.tokenURL && '|' !in k.api
  }

  /** Two keys print alike exactly when they are of the same version of the same Secret and their endpoint fields
      print alike. */
  lemma PrintedExactlyWhen(k: Key, k': Key)
    requires PlainNames(k) && PlainNames(k')
    ensures Printed(k) == Printed(k') <==>
            && k.namespace == k'.namespace && k.name == k'.name && k.version == k'.version
            && PrintedEnds(k) == PrintedEnds(k')
  {
    var c, c' := PrintedEnds(k), PrintedEnds(k');
    var b, b' := k.version + "|" + c, k'.version + "|" + c';
    var a, a' := k.name + "@" + b, k'.name + "@" + b';
    assert Printed(k) == k.namespace + "/" + a;
    assert Printed(k') == k'.namespace + "/" + a';
    if Printed(k) == Printed(k') {
      FirstSplits('/', k.namespace, a, k'.namespace, a');
      FirstSplits('@', k.name, b, k'.name, b');
      FirstSplits('|', k.version, c, k'.version, c');
    }
  }

  /** The printed key reads back in one way only. */
  lemma PrintedIsUnique(k: Key, k': Key)
    requires Plain(k) && Plain(k') && Printed(k) == Printed(k')
    ensures k == k'
  {
    PrintedExactlyWhen(k, k');
    var d, d' := k.api + "|" + k.projectID, k'.api + "|" + k'.projectID;
    assert PrintedEnds(k) == k.tokenURL + "|" + d && PrintedEnds(k') == k'.tokenURL + "|" + d';
    FirstSplits('|', k.tokenURL, d, k'.tokenURL, d');
    FirstSplits('|', k.api, k.projectID, k'.api, k'.projectID);
  }

  // ---------------------------------------------------------------- configFor

  datatype Keyed = Keyed(config: Config, key: string)

  function EndpointsOf(t: TunnelRef): Endpoints {
    if t.endpoints.Some? then t.endpoints.value else Endpoints("", "", "")
  }

  function KeyOf(t: TunnelRef, c: Credential): Key {
    var e := EndpointsOf(t);
    Key(t.namespace, t.credentials.name, c.resourceVersion, e.tokenURL, e.api, e.projectID)
  }

  function ConfigFor(r: Request, userAgent: string): Result<Keyed> {
    if r.credential.None? then Err(SecretUnreadable)
    else
      var ref, c, e := r.tunnel.credentials, r.credential.value, EndpointsOf(r.tunnel);
      if Entry(c, IDKey(ref)) == "" then Err(NoClientID)
      else if Entry(c, SecretKey(ref)) == "" then Err(NoClientSecret)
      else Ok(Keyed(Config(Entry(c, IDKey(ref)), Entry(c, SecretKey(ref)), e.tokenURL, e.api, e.projectID, userAgent),
                    Printed(KeyOf(r.tunnel, c))))
  }

  /** What a client is built from, field by field: the two entries the Tunnel names (or the default ones), both present
      and not empty, and the Tunnel's own endpoints. It fails exactly when the Secret cannot be read or an entry is
      missing or empty, and says which, the client id first. */
  lemma ConfigTells(r: Request, userAgent: string)
    ensures var ref := r.tunnel.credentials;
            var id := if ref.clientIDKey != "" then ref.clientIDKey else "client_id";
            var secret := if ref.clientSecretKey != "" then ref.clientSecretKey else "client_secret";
            match r.credential
            case None => ConfigFor(r, userAgent) == Err(SecretUnreadable)
            case Some(c) =>
              && (ConfigFor(r, userAgent) == Err(NoClientID) <==> id !in c.data || c.data[id] == "")
              && (ConfigFor(r, userAgent) == Err(NoClientSecret)
                  <==> id in c.data && c.data[id] != "" && (secret !in c.data || c.data[secret] == ""))
              && (ConfigFor(r, userAgent).Ok?
                  <==> id in c.data && c.data[id] != "" && secret in c.data && c.data[secret] != "")
              && (ConfigFor(r, userAgent).Ok? ==>
                    var cfg := ConfigFor(r, userAgent).value.config;
                    && cfg.clientID == c.data[id] && cfg.clientSecret == c.data[secret] && cfg.userAgent == userAgent
                    && match r.tunnel.endpoints
                       case None => cfg.tokenURL == "" && cfg.endpoint == "" && cfg.projectID == ""
                       case Some(e) =>
                         cfg.tokenURL == e.tokenURL && cfg.endpoint == e.api && cfg.projectID == e.projectID)
  {
    hide Printed;
  }

  // ---------------------------------------------------------------- serving

  datatype Cache = Cache(clients: map<string, Client>, builds: nat)

  function Serve(cache: Cache, r: Request, userAgent: string): (Cache, Result<Client>) {
    match ConfigFor(r, userAgent)
    case Err(e) => (cache, Err(e))
    case Ok(keyed) =>
      if keyed.key in cache.clients then (cache, Ok(cache.clients[keyed.key]))
      else
        var built := Client(keyed.config, cache.builds);
        (Cache(cache.clients[keyed.key := built], cache.builds + 1), Ok(built))
  }

  /** The cache after a history of calls, in the order in which they took the lock. */
  function After(h: seq<Request>, userAgent: string): Cache {
    if h == [] then Cache(map[], 0) else Serve(After(h[..|h| - 1], userAgent), h[|h| - 1], userAgent).0
  }

  /** What the i-th call answered. */
  function Answer(h: seq<Request>, i: nat, userAgent: string): Result<Client>
    requires i < |h|
  {
    Serve(After(h[..i], userAgent), h[i], userAgent).1
  }

  /** The keys served so far. */
  function Keys(h: seq<Request>, userAgent: string): set<string> {
    if h == [] then {}
    else
      var before := Keys(h[..|h| - 1], userAgent);
      match ConfigFor(h[|h| - 1], userAgent)
      case Err(_) => before
      case Ok(keyed) => before + {keyed.key}
  }

  /** The first call of the history that computed this key. */
  ghost predicate First(h: seq<Request>, i: nat, key: string, userAgent: string) {
    && i < |h| && Computes(h[i], key, userAgent)
    && forall j :: 0 <= j < i ==> !Computes(h[j], key, userAgent)
  }

  predicate Computes(r: Request, key: string, userAgent: string) {
    ConfigFor(r, userAgent).Ok? && ConfigFor(r, userAgent).value.key == key
  }

  /** Some call of the history computed this key. */
  ghost predicate Asked(h: seq<Request>, key: string, userAgent: string) {
    exists i :: 0 <= i < |h| && Computes(h[i], key, userAgent)
  }

  lemma FirstStays(h: seq<Request>, i: nat, key: string, userAgent: string)
    requires h != [] && First(h[..|h| - 1], i, key, userAgent)
    ensures First(h, i, key, userAgent)
  {
    assert forall j :: 0 <= j < |h| - 1 ==> h[..|h| - 1][j] == h[j];
  }

  /** Each key is built once, when first computed, from the config of that call. */
  ghost predicate Explained(h: seq<Request>, key: string, userAgent: string) {
    var cache := After(h, userAgent);
    key in cache.clients ==>
      exists i: nat ::
        First(h, i, key, userAgent) && cache.clients[key].config == ConfigFor(h[i], userAgent).value.config
  }

  lemma {:induction false} CacheExplained(h: seq<Request>, userAgent: string)
    ensures After(h, userAgent).clients.Keys == Keys(h, userAgent)
    ensures After(h, userAgent).builds == |Keys(h, userAgent)|
    ensures forall key :: key in Keys(h, userAgent) <==> Asked(h, key, userAgent)
    ensures forall key :: Explained(h, key, userAgent)
    decreases |h|
  {
    if h != [] {
      var before := h[..|h| - 1];
      CacheExplained(before, userAgent);
      ComputedSoFar(h, before, userAgent);
      forall key
        ensures Explained(h, key, userAgent)
      {
        ExplainedStays(h, key, userAgent);
      }
    }
  }

  lemma ComputedSoFar(h: seq<Request>, before: seq<Request>, userAgent: string)
    requires h != [] && before == h[..|h| - 1]
    requires forall key :: key in Keys(before, userAgent) <==> Asked(before, key, userAgent)
    ensures forall key :: key in Keys(h, userAgent) <==> Asked(h, key, userAgent)
  {
    assert forall j :: 0 <= j < |h| - 1 ==> before[j] == h[j];
    hide ConfigFor;
    forall key
      ensures key in Keys(h, userAgent) <==> Asked(h, key, userAgent)
    {
      if key in Keys(before, userAgent) {
        var i :| 0 <= i < |h| - 1 && Computes(before[i], key, userAgent);
        assert Computes(h[i], key, userAgent);
      }
      if i :| 0 <= i < |h| && Computes(h[i], key, userAgent) {
        assert i < |h| - 1 ==> Computes(before[i], key, userAgent);
      }
    }
  }

  lemma ExplainedStays(h: seq<Request>, key: string, userAgent: string)
    requires h != [] && Explained(h[..|h| - 1], key, userAgent)
    requires After(h[..|h| - 1], userAgent).clients.Keys == Keys(h[..|h| - 1], userAgent)
    requires key in Keys(h[..|h| - 1], userAgent) <==>
             Asked(h[..|h| - 1], key, userAgent)
    ensures Explained(h, key, userAgent)
  {
    hide ConfigFor;
    var before := h[..|h| - 1];
    assert forall j :: 0 <= j < |h| - 1 ==> before[j] == h[j];
    if key in Keys(before, userAgent) {
      var i: nat :| First(before, i, key, userAgent)
               && After(before, userAgent).clients[key].config == ConfigFor(before[i], userAgent).value.config;
      FirstStays(h, i, key, userAgent);
      assert h[i] == before[i];
    } else if key in After(h, userAgent).clients {
      forall j | 0 <= j < |h| - 1
        ensures !Computes(h[j], key, userAgent)
      {
        assert !Computes(before[j], key, userAgent);
      }
      assert First(h, |h| - 1, key, userAgent);
    }
  }

  // ---------------------------------------------------------------- agreement with rebuilding

  /** The i-th call answered what building a client anew would have: the same error, or a client of the config
      just computed. */
  predicate Agrees(h: seq<Request>, i: nat, userAgent: string)
    requires i < |h|
  {
    match (ConfigFor(h[i], userAgent), Answer(h, i, userAgent))
    case (Err(e), Err(e')) => e == e'
    case (Ok(keyed), Ok(client)) => client.config == keyed.config
    case _ => false
  }

  /** Equal keys come from equal configs. */
  ghost predicate Faithful(h: seq<Request>, userAgent: string) {
    forall i, j :: 0 <= i < |h| && 0 <= j < |h| && SameKey(h[i], h[j], userAgent) ==> SameConfig(h[i], h[j], userAgent)
  }

  predicate SameKey(r: Request, r': Request, userAgent: string) {
    ConfigFor(r, userAgent).Ok? && Computes(r', ConfigFor(r, userAgent).value.key, userAgent)
  }

  predicate SameConfig(r: Request, r': Request, userAgent: string) {
    ConfigFor(r, userAgent).Ok? && ConfigFor(r', userAgent).Ok?
    && ConfigFor(r, userAgent).value.config == ConfigFor(r', userAgent).value.config
  }

  /** A call answers with the config of the first call that computed its key. */
  lemma AnswersFirst(h: seq<Request>, i: nat, f: nat, userAgent: string)
    requires i < |h| && ConfigFor(h[i], userAgent).Ok? && First(h, f, ConfigFor(h[i], userAgent).value.key, userAgent)
    ensures f <= i && Answer(h, i, userAgent).Ok?
    ensures Answer(h, i, userAgent).value.config == ConfigFor(h[f], userAgent).value.config
  {
    hide ConfigFor;
    var key := ConfigFor(h[i], userAgent).value.key;
    assert Computes(h[i], key, userAgent);
    var before := h[..i];
    CacheExplained(before, userAgent);
    if f < i {
      assert Computes(before[f], key, userAgent);
      assert Explained(before, key, userAgent);
      var g: nat :| First(before, g, key, userAgent)
                    && After(before, userAgent).clients[key].config == ConfigFor(before[g], userAgent).value.config;
      assert before[g] == h[g];
    } else {
      assert forall j :: 0 <= j < i ==> before[j] == h[j];
    }
  }

  lemma FirstExists(h: seq<Request>, i: nat, key: string, userAgent: string) returns (f: nat)
    requires i < |h| && Computes(h[i], key, userAgent)
    ensures f <= i && First(h, f, key, userAgent)
  {
    f := 0;
    while !Computes(h[f], key, userAgent)
      decreases i - f
      invariant f <= i && forall j :: 0 <= j < f ==> !Computes(h[j], key, userAgent)
    {
      f := f + 1;
    }
  }

  /** The cache agrees with rebuilding on every call of a history exactly when equal keys came from equal
      configs; and whether or not, it builds one client per distinct key. */
  lemma CacheAgreesExactlyWhen(h: seq<Request>, userAgent: string)
    ensures (forall i :: 0 <= i < |h| ==> Agrees(h, i, userAgent)) <==> Faithful(h, userAgent)
    ensures After(h, userAgent).builds == |Keys(h, userAgent)|
  {
    hide ConfigFor, Answer;
    CacheExplained(h, userAgent);
    if Faithful(h, userAgent) {
      forall i | 0 <= i < |h|
        ensures Agrees(h, i, userAgent)
      {
        AgreesIfFaithful(h, i, userAgent);
      }
    }
    if forall i :: 0 <= i < |h| ==> Agrees(h, i, userAgent) {
      forall i, j | 0 <= i < |h| && 0 <= j < |h| && SameKey(h[i], h[j], userAgent)
        ensures SameConfig(h[i], h[j], userAgent)
      {
        var f := FirstExists(h, i, ConfigFor(h[i], userAgent).value.key, userAgent);
        AnswersFirst(h, i, f, userAgent);
        AnswersFirst(h, j, f, userAgent);
        assert Agrees(h, i, userAgent) && Agrees(h, j, userAgent);
      }
    }
  }

  lemma AgreesIfFaithful(h: seq<Request>, i: nat, userAgent: string)
    requires i < |h| && Faithful(h, userAgent)
    ensures Agrees(h, i, userAgent)
  {
    hide ConfigFor;
    if ConfigFor(h[i], userAgent).Ok? {
      var f := FirstExists(h, i, ConfigFor(h[i], userAgent).value.key, userAgent);
      AnswersFirst(h, i, f, userAgent);
      assert SameKey(h[i], h[f], userAgent);
    }
  }

  /** What a cluster guarantees of a Secret's versions, and what callers must keep to: a version has one content;
      a Secret is always read with the same two entries; and no URL holds the separator. */
  ghost predicate WellUsed(h: seq<Request>) {
    && (forall i :: 0 <= i < |h| && h[i].credential.Some? ==> Plain(KeyOf(h[i].tunnel, h[i].credential.value)))
    && (forall i, j :: 0 <= i < |h| && 0 <= j < |h| && SameSecret(h[i], h[j]) ==>
          && EntriesRead(h[i]) == EntriesRead(h[j])
          && (h[i].credential.Some? && h[j].credential.Some?
              && h[i].credential.value.resourceVersion == h[j].credential.value.resourceVersion
              ==> h[i].credential.value.data == h[j].credential.value.data))
  }

  predicate SameSecret(r: Request, r': Request) {
    r.tunnel.namespace == r'.tunnel.namespace && r.tunnel.credentials.name == r'.tunnel.credentials.name
  }

  function EntriesRead(r: Request): (string, string) {
    (IDKey(r.tunnel.credentials), SecretKey(r.tunnel.credentials))
  }

  /** Then every history of calls, Secret updates and endpoint edits is served as if the client were built anew
      each time. */
  lemma CacheAgreesWithRebuilding(h: seq<Request>, userAgent: string)
    requires WellUsed(h)
    ensures forall i :: 0 <= i < |h| ==> Agrees(h, i, userAgent)
    ensures After(h, userAgent).builds == |Keys(h, userAgent)|
  {
    hide Printed, Agrees, Plain;
    forall i, j | 0 <= i < |h| && 0 <= j < |h| && SameKey(h[i], h[j], userAgent)
      ensures SameConfig(h[i], h[j], userAgent)
    {
      PrintedIsUnique(KeyOf(h[i].tunnel, h[i].credential.value), KeyOf(h[j].tunnel, h[j].credential.value));
      assert SameSecret(h[i], h[j]);
    }
    CacheAgreesExactlyWhen(h, userAgent);
  }

  /** What a cluster guarantees: names hold no separators, and a version of a Secret has one content. */
  ghost predicate ClusterOk(h: seq<Request>) {
    && (forall i :: 0 <= i < |h| && h[i].credential.Some? ==> PlainNames(KeyOf(h[i].tunnel, h[i].credential.value)))
    && (forall i, j :: 0 <= i < |h| && 0 <= j < |h| && SameVersion(h[i], h[j]) ==>
          h[i].credential.value.data == h[j].credential.value.data)
  }

  predicate SameVersion(r: Request, r': Request) {
    && SameSecret(r, r') && r.credential.Some? && r'.credential.Some?
    && r.credential.value.resourceVersion == r'.credential.value.resourceVersion
  }

  predicate EndsPrintAlike(r: Request, r': Request) {
    && r.credential.Some? && r'.credential.Some?
    && PrintedEnds(KeyOf(r.tunnel, r.credential.value)) == PrintedEnds(KeyOf(r'.tunnel, r'.credential.value))
  }

  /** The values of the two entries that a call reads. */
  function ValuesRead(r: Request): (string, string)
    requires r.credential.Some?
  {
    var ref, c := r.tunnel.credentials, r.credential.value;
    (Entry(c, IDKey(ref)), Entry(c, SecretKey(ref)))
  }

  /** Calls on the same version of a Secret whose endpoint fields print alike have the same endpoint fields and read the
      same values. Callers can see to that: it speaks of what they ask for, not of what they get. */
  ghost predicate Distinguished(h: seq<Request>, userAgent: string) {
    forall i, j :: 0 <= i < |h| && 0 <= j < |h| && SameVersion(h[i], h[j]) && EndsPrintAlike(h[i], h[j])
                   && ConfigFor(h[i], userAgent).Ok? && ConfigFor(h[j], userAgent).Ok? ==>
      EndpointsOf(h[i].tunnel) == EndpointsOf(h[j].tunnel) && ValuesRead(h[i]) == ValuesRead(h[j])
  }

  lemma SameKeyMeans(r: Request, r': Request, userAgent: string)
    requires ConfigFor(r, userAgent).Ok? && ConfigFor(r', userAgent).Ok?
    requires PlainNames(KeyOf(r.tunnel, r.credential.value)) && PlainNames(KeyOf(r'.tunnel, r'.credential.value))
    ensures SameKey(r, r', userAgent) <==> SameVersion(r, r') && EndsPrintAlike(r, r')
    ensures SameConfig(r, r', userAgent) <==>
            EndpointsOf(r.tunnel) == EndpointsOf(r'.tunnel) && ValuesRead(r) == ValuesRead(r')
  {
    hide Printed, PrintedEnds, PlainNames, IDKey, SecretKey, Entry;
    PrintedExactlyWhen(KeyOf(r.tunnel, r.credential.value), KeyOf(r'.tunnel, r'.credential.value));
  }

  /** In a cluster, then, every call of a history is served as if the client were built anew if and only if the history
      is so distinguished. */
  lemma CacheAgreesExactlyWhenDistinguished(h: seq<Request>, userAgent: string)
    requires ClusterOk(h)
    ensures (forall i :: 0 <= i < |h| ==> Agrees(h, i, userAgent)) <==> Distinguished(h, userAgent)
  {
    hide Agrees, SameKey, SameConfig, SameVersion, EndsPrintAlike, PlainNames, ValuesRead, EndpointsOf, KeyOf;
    CacheAgreesExactlyWhen(h, userAgent);
    forall i, j | 0 <= i < |h| && 0 <= j < |h| && ConfigFor(h[i], userAgent).Ok? && ConfigFor(h[j], userAgent).Ok?
      ensures SameKey(h[i], h[j], userAgent) <==> SameVersion(h[i], h[j]) && EndsPrintAlike(h[i], h[j])
      ensures SameConfig(h[i], h[j], userAgent) <==>
              EndpointsOf(h[i].tunnel) == EndpointsOf(h[j].tunnel) && ValuesRead(h[i]) == ValuesRead(h[j])
    {
      SameKeyMeans(h[i], h[j], userAgent);
    }
    forall i, j | 0 <= i < |h| && 0 <= j < |h| && SameKey(h[i], h[j], userAgent)
      ensures ConfigFor(h[i], userAgent).Ok? && ConfigFor(h[j], userAgent).Ok?
    {
      KeyedIsOk(h[i], h[j], userAgent);
    }
  }

  lemma KeyedIsOk(r: Request, r': Request, userAgent: string)
    requires SameKey(r, r', userAgent)
    ensures ConfigFor(r, userAgent).Ok? && ConfigFor(r', userAgent).Ok?
  {
  }

  // ---------------------------------------------------------------- where the key falls short

  /** Two Tunnels that read different entries of one Secret share a key, and so the second gets the first one's
      credential. */
  lemma OtherEntriesShareClient(userAgent: string)
    ensures var c := Credential("1", map["client_id" := "a", "client_secret" := "s", "other_id" := "b"]);
            var t := TunnelRef("ns", CredentialsRef("cred", "", ""), None);
            var u := TunnelRef("ns", CredentialsRef("cred", "other_id", ""), None);
            var h := [Request(t, Some(c)), Request(u, Some(c))];
            && ConfigFor(h[1], userAgent).Ok? && ConfigFor(h[1], userAgent).value.config.clientID == "b"
            && Answer(h, 1, userAgent).Ok? && Answer(h, 1, userAgent).value.config.clientID == "a"
  {
    var c := Credential("1", map["client_id" := "a", "client_secret" := "s", "other_id" := "b"]);
    var t := TunnelRef("ns", CredentialsRef("cred", "", ""), None);
    var u := TunnelRef("ns", CredentialsRef("cred", "other_id", ""), None);
    var h := [Request(t, Some(c)), Request(u, Some(c))];
    assert KeyOf(t, c) == KeyOf(u, c);
    assert First(h, 0, Printed(KeyOf(t, c)), userAgent);
    AnswersFirst(h, 1, 0, userAgent);
  }

  /** A separator inside a URL makes two endpoint settings print the same. */
  lemma SeparatorCollides(k: Key, x: string, y: string, z: string)
    ensures Printed(k.(tokenURL := x + "|" + y, api := z)) == Printed(k.(tokenURL := x, api := y + "|" + z))
  {
    var a := k.namespace + "/" + k.name + "@" + k.version + "|";
    assert Printed(k.(tokenURL := x + "|" + y, api := z)) == a + (x + "|" + y + "|" + z) + "|" + k.projectID;
    assert Printed(k.(tokenURL := x, api := y + "|" + z)) == a + (x + "|" + y + "|" + z) + "|" + k.projectID;
  }

  /** So two Tunnels with the same credential and different endpoints share a key, and the second is served a client
      that talks to the endpoints of the first. */
  lemma SeparatorSharesClient(x: string, y: string, z: string, userAgent: string)
    ensures var c := Credential("1", map["client_id" := "a", "client_secret" := "s"]);
            var ref := CredentialsRef("cred", "", "");
            var t := TunnelRef("ns", ref, Some(Endpoints(x + "|" + y, z, "")));
            var u := TunnelRef("ns", ref, Some(Endpoints(x, y + "|" + z, "")));
            var h := [Request(t, Some(c)), Request(u, Some(c))];
            && ConfigFor(h[1], userAgent).Ok? && ConfigFor(h[1], userAgent).value.config.tokenURL == x
            && Answer(h, 1, userAgent).Ok? && Answer(h, 1, userAgent).value.config.tokenURL == x + "|" + y
            && !Agrees(h, 1, userAgent)
  {
    var c := Credential("1", map["client_id" := "a", "client_secret" := "s"]);
    var ref := CredentialsRef("cred", "", "");
    var t := TunnelRef("ns", ref, Some(Endpoints(x + "|" + y, z, "")));
    var u := TunnelRef("ns", ref, Some(Endpoints(x, y + "|" + z, "")));
    var h := [Request(t, Some(c)), Request(u, Some(c))];
    hide Printed, Serve, After;
    SeparatorCollides(KeyOf(t, c), x, y, z);
    assert KeyOf(u, c) == KeyOf(t, c).(tokenURL := x, api := y + "|" + z);
    assert First(h, 0, Printed(KeyOf(u, c)), userAgent);
    AnswersFirst(h, 1, 0, userAgent);
    assert |x + "|" + y| != |x|;
  }

  // ---------------------------------------------------------------- the factory

  class CachedClientFactory {
    const userAgent: string
    var clients: map<string, Client>
    var builds: nat
    ghost var history: seq<Request>

    constructor (userAgent: string)
      ensures Valid() && history == [] && this.userAgent == userAgent
    {
      this.userAgent, clients, builds, history := userAgent, map[], 0, [];
    }

    /** The state is what the history of calls made of it. */
    ghost predicate Valid()
      reads this
    {
      Cache(clients, builds) == After(history, userAgent)
    }

    /** The section under the lock, after the credential was read. */
    method ClientFor(tunnel: TunnelRef, credential: Option<Credential>) returns (r: Result<Client>)
      requires Valid()
      modifies this
      ensures Valid() && history == old(history) + [Request(tunnel, credential)]
      ensures r == Answer(history, |history| - 1, userAgent)
      ensures WellUsed(history) ==>
              match ConfigFor(Request(tunnel, credential), userAgent)
              case Err(e) => r == Err(e) && clients == old(clients)
              case Ok(keyed) => r.Ok? && r.value.config == keyed.config
      ensures builds == |Keys(history, userAgent)|
    {
      hide WellUsed, ConfigFor;
      ghost var before := history;
      history := history + [Request(tunnel, credential)];
      assert history[..|history| - 1] == before;
      if WellUsed(history) {
        CacheAgreesWithRebuilding(history, userAgent);
        assert Agrees(history, |history| - 1, userAgent);
      }
      CacheExplained(history, userAgent);
      var computed := ConfigFor(Request(tunnel, credential), userAgent);
      if computed.Err? {
        return Err(computed.error);
      }
      var key := computed.value.key;
      if key in clients {
        return Ok(clients[key]);
      }
      var built := Client(computed.value.config, builds);
      clients, builds := clients[key := built], builds + 1;
      r := Ok(built);
    }
  }
}
