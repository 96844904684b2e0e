/** internal/platform/connector.go: the connection Secret of an Integration. */
module Connectors {
  import opened Base
  import opened Labels
  import opened Clusters
  import opened Quotas
  import opened Configs

  const CONNECTION_SUFFIX := "-connection"
  const ENDPOINT := "endpoint"
  const TYPE := "type"
  const CREDENTIAL_PREFIX := "credential."

  type Data = map<string, string>

  datatype ConnectorType = Webhook | RESTAPI | OAuth2 | Database | Messaging | ObjectStore

  function TypeName(t: ConnectorType): string {
    match t
    case Webhook => "webhook"
    case RESTAPI => "restapi"
    case OAuth2 => "oauth2"
    case Database => "database"
    case Messaging => "messaging"
    case ObjectStore => "objectstore"
  }

  predicate IsHTTPType(t: ConnectorType) {
    t.Webhook? || t.RESTAPI? || t.OAuth2? || t.ObjectStore?
  }

  /** The name that a type has in the API. */
  predicate Named(t: ConnectorType, name: string) {
    match t
    case Webhook => name == "webhook"
    case RESTAPI => name == "restapi"
    case OAuth2 => name == "oauth2"
    case Database => name == "database"
    case Messaging => name == "messaging"
    case ObjectStore => name == "objectstore"
  }

  function ConnectionSecretName(integration: string): string { integration + CONNECTION_SUFFIX }

  function CredentialKey(k: string): (r: string)
    ensures |r| >= |CREDENTIAL_PREFIX| && r[..|CREDENTIAL_PREFIX|] == CREDENTIAL_PREFIX && r[|CREDENTIAL_PREFIX|..] == k
  {
    CREDENTIAL_PREFIX + k
  }

  predicate IsCredentialKey(k: string) { CREDENTIAL_PREFIX <= k }

  /** `data` is the payload of exactly this endpoint, type and credentials. */
  predicate Encodes(data: Data, endpoint: string, kind: string, creds: Data) {
    && "endpoint" in data && data["endpoint"] == endpoint
    && "type" in data && data["type"] == kind
    && (forall k | k in creds :: "credential." + k in data && data["credential." + k] == creds[k])
    && (forall k | k in data :: k == ENDPOINT || k == TYPE ||
                                (IsCredentialKey(k) && k[|CREDENTIAL_PREFIX|..] in creds))
  }

  /** Fills the payload entry by entry, in whatever order the map yields the credentials. */
  method BuildConnectionData(endpoint: string, kind: string, creds: Data) returns (data: Data)
    ensures Encodes(data, endpoint, kind, creds)
  {
    data := map[ENDPOINT := endpoint, TYPE := kind];
    var todo := creds.Keys;
    while todo != {}
      invariant todo <= creds.Keys
      invariant ENDPOINT in data && data[ENDPOINT] == endpoint
      invariant TYPE in data && data[TYPE] == kind
      invariant forall k | k in creds && k !in todo :: CredentialKey(k) in data && data[CredentialKey(k)] == creds[k]
      invariant forall k | k in data :: k == ENDPOINT || k == TYPE ||
                                        (IsCredentialKey(k) && k[|CREDENTIAL_PREFIX|..] in creds)
    {
      var k :| k in todo;
      ReservedKeysDiffer(k);
      data := data[CredentialKey(k) := creds[k]];
      todo := todo - {k};
    }
  }

  lemma ReservedKeysDiffer(k: string)
    ensures CredentialKey(k) != ENDPOINT && CredentialKey(k) != TYPE
  {
    assert CredentialKey(k)[0] == 'c' && ENDPOINT[0] == 'e' && TYPE[0] == 't';
  }

  /** What a workload recovers by stripping the prefix. */
  function Credentials(data: Data): Data {
    var names := set k | k in data && IsCredentialKey(k) :: k[|CREDENTIAL_PREFIX|..];
    map n | n in names && CredentialKey(n) in data :: data[CredentialKey(n)]
  }

  /** Stripping the prefix and putting it back are inverse to each other. */
  lemma Prefixed(k: string)
    ensures IsCredentialKey(k) ==> CredentialKey(k[|CREDENTIAL_PREFIX|..]) == k
    ensures IsCredentialKey(CredentialKey(k))
  {
  }

  /** The payload decodes: endpoint, type and credentials are recovered exactly, and hence do
      not depend on the order in which the payload was filled. */
  lemma PayloadDecodes(data: Data, endpoint: string, kind: string, creds: Data)
    requires Encodes(data, endpoint, kind, creds)
    ensures data["endpoint"] == endpoint && data["type"] == kind && Credentials(data) == creds
  {
    var names := set k | k in data && IsCredentialKey(k) :: k[|CREDENTIAL_PREFIX|..];
    forall n ensures n in names <==> n in creds {
      if n in creds {
        Prefixed(n);
        assert CredentialKey(n)[|CREDENTIAL_PREFIX|..] in names;
      }
      if n in names {
        var k :| k in data && IsCredentialKey(k) && k[|CREDENTIAL_PREFIX|..] == n;
        assert ENDPOINT[0] == 'e' && TYPE[0] == 't' && k[0] == CREDENTIAL_PREFIX[0] == 'c';
      }
    }
    assert names == creds.Keys;
  }

  lemma PayloadIsUnique(a: Data, b: Data, endpoint: string, kind: string, creds: Data)
    requires Encodes(a, endpoint, kind, creds) && Encodes(b, endpoint, kind, creds)
    ensures a == b
  {
    forall k ensures k in a <==> k in b {
      assert IsCredentialKey(k) ==> CredentialKey(k[|CREDENTIAL_PREFIX|..]) == k;
    }
    forall k | k in a ensures a[k] == b[k] {
      assert IsCredentialKey(k) ==> CredentialKey(k[|CREDENTIAL_PREFIX|..]) == k;
    }
  }

  datatype Resolution = NoSecret | Resolved(data: Data) | SecretMissing | LookupFailed

  /** No reference means no credentials; a missing Secret is told apart from a failed call. */
  method ResolveAuthSecret(c: Cluster, namespace: string, ref: Option<string>) returns (r: Resolution)
    requires c.Valid()
    modifies c`calls, c`failures
    ensures c.Valid() && old(c.calls) <= c.calls && old(c.failures) <= c.failures
    ensures r.NoSecret? <==> ref.None?
    ensures r.SecretMissing? ==> ref.Some? && Key(Secret, namespace, ref.value) !in c.objects
    ensures r.LookupFailed? <==> old(c.failures) < c.failures
    ensures r.Resolved? ==>
              && ref.Some? && var key := Key(Secret, namespace, ref.value);
              && key in c.objects
              && r.data == if c.objects[key].body.DataBody? then c.objects[key].body.data else map[]
  {
    if ref.None? {
      return NoSecret;
    }
    var reply := c.Get(SecretKey(namespace, ref.value));
    match reply
    case Failed => return LookupFailed;
    case NotFound => return SecretMissing;
    case Found(child) => return Resolved(DataOf(child));
  }

  function DataOf(child: Child): Data {
    if child.body.DataBody? then child.body.data else map[]
  }

  method ReconcileConnectionSecret(c: Cluster, owner: string, namespace: string, name: string, data: Data,
                                   labels: Labels)
    returns (ok: bool)
    requires c.Valid()
    modifies c
    ensures c.Valid() && old(c.calls) <= c.calls && old(c.failures) <= c.failures
    ensures var key := SecretKey(namespace, name);
            Stepped(old(c.objects), c.objects, key,
                    Overwrite(Slot(old(c.objects), key), labels, DataBody(data), Some(owner)),
                    ok, old(c.failures) < c.failures)
  {
    var key := SecretKey(namespace, name);
    var fetched := c.Get(key);
    if fetched.Failed? {
      return false;
    }
    ok := Apply(c, key, fetched, labels, DataBody(data), Some(owner));
  }

  method DeleteConnectionSecret(c: Cluster, namespace: string, name: string) returns (ok: bool)
    requires c.Valid()
    modifies c
    ensures c.Valid() && old(c.calls) <= c.calls && old(c.failures) <= c.failures
    ensures Stepped(old(c.objects), c.objects, SecretKey(namespace, name), Ok(None),
                    ok, old(c.failures) < c.failures)
  {
    ok := c.Discard(SecretKey(namespace, name));
  }
}
