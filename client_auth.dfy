/** The path-and-query part of a request URL as Client._generate_auth_url
    builds it: the call's parameters merged with the per-call extra
    parameters and sorted, followed by the credentials. */
module ClientAuth {
  import opened Maybe
  import opened Values
  import opened Exceptions
  import opened Request
  import opened Sorting
  import opened Urlencode
  import opened Text

  /** The client's credentials; an empty string stands for None. */
  datatype Credentials = Credentials(key: string, clientId: string, clientSecret: string, channel: string)

  /** sign_hmac(secret, payload): the base64url HMAC-SHA1 signature of section 2
      of RFC 2104, keyed with the base64url-decoded secret. */
  type Signer = (string, string) -> string

  /** `self.client_id and self.client_secret` */
  predicate Enterprise(c: Credentials) {
    c.clientId != "" && c.clientSecret != ""
  }

  /** urlencode_params on a list of pairs. */
  function Query(ps: seq<(string, Value)>): (q: string)
    ensures Wellformed(q)
  {
    UrlencodePairs(Expand(ps), false)
  }

  /** The sorted parameters: a dict is merged over the extra parameters and
      sorted by key; a list keeps its order behind the sorted extra parameters. */
  function Merge(extra: map<string, Value>, params: Params): (ps: seq<(string, Value)>)
    ensures params.DictParams? ==> StrictlySorted(ps) && |ps| == |extra + params.entries|
    ensures params.ListParams? ==>
      && |ps| == |extra| + |params.pairs|
      && ps[|extra|..] == params.pairs
      && StrictlySorted(ps[..|extra|])
      && forall i :: 0 <= i < |extra| ==> ps[i].0 in extra && extra[ps[i].0] == ps[i].1
  {
    match params
    case DictParams(d) => SortedItems(extra + d)
    case ListParams(pairs) =>
      var sorted := SortedItems(extra);
      assert (sorted + pairs)[..|extra|] == sorted;
      sorted + pairs
  }

  /** In a merged dict the call's own parameters win over the extra ones, and
      every key appears once. */
  lemma DictParamsWin(extra: map<string, Value>, d: map<string, Value>, k: string)
    ensures DistinctKeys(Merge(extra, DictParams(d)))
    ensures Lookup(Merge(extra, DictParams(d)), k) == if k in d then Some(d[k]) else Get(extra, k)
  {
    SortedLookup(extra + d, k);
  }

  /** The parameters signed in enterprise mode: the channel, if any, and then
      the client ID follow the sorted parameters. */
  function EnterpriseParams(c: Credentials, ps: seq<(string, Value)>): seq<(string, Value)> {
    ps + (if c.channel != "" then [("channel", Str(c.channel))] else []) + [("client", Str(c.clientId))]
  }

  const NoKeyMessage := "Must provide API key for this API. It does not accept enterprise credentials."

  /** Client._generate_auth_url */
  function AuthUrl(c: Credentials, path: string, params: Params, extra: map<string, Value>,
                   acceptsClientId: bool, sign: Signer): (r: Result<string>)
    ensures r.Err? <==> !(acceptsClientId && Enterprise(c)) && c.key == ""
    ensures r.Err? ==> r.error == ValueError(NoKeyMessage)
  {
    var ps := Merge(extra, params);
    if acceptsClientId && Enterprise(c) then
      var signed := path + "?" + Query(EnterpriseParams(c, ps));
      Ok(signed + "&signature=" + sign(c.clientSecret, signed))
    else if c.key != "" then Ok(path + "?" + Query(ps + [("key", Str(c.key))]))
    else Err(ValueError(NoKeyMessage))
  }

  /** The URL signed in enterprise mode: the signature covers exactly the
      path and query before it, and comes last. */
  lemma SignatureLast(c: Credentials, path: string, params: Params, extra: map<string, Value>, sign: Signer)
    requires Enterprise(c)
    ensures var r := AuthUrl(c, path, params, extra, true, sign);
      var signed := path + "?" + Query(EnterpriseParams(c, Merge(extra, params)));
      && r.Ok?
      && |signed| + 11 <= |r.value|
      && r.value[..|signed|] == signed
      && r.value[|signed|..|signed| + 11] == "&signature="
      && r.value[|signed| + 11..] == sign(c.clientSecret, signed)
  {
    var signed := path + "?" + Query(EnterpriseParams(c, Merge(extra, params)));
    var sig := sign(c.clientSecret, signed);
    assert AuthUrl(c, path, params, extra, true, sign) == Ok(signed + "&signature=" + sig);
    Slices(signed, "&signature=", sig);
  }

  lemma Slices(a: string, b: string, c: string)
    ensures var s := a + b + c;
      |s| == |a| + |b| + |c| && s[..|a|] == a && s[|a|..|a| + |b|] == b && s[|a| + |b|..] == c
  {
  }

  /** The pairs urlencoded in enterprise mode: those of the sorted parameters,
      then the channel, if any, and the client ID. */
  lemma EnterprisePairs(c: Credentials, ps: seq<(string, Value)>)
    ensures Expand(EnterpriseParams(c, ps)) ==
      Expand(ps) + (if c.channel != "" then [("channel", c.channel)] else []) + [("client", c.clientId)]
  {
    var ch: seq<(string, Value)> := if c.channel != "" then [("channel", Str(c.channel))] else [];
    ExpandAppend(ps + ch, [("client", Str(c.clientId))]);
    ExpandAppend(ps, ch);
    if c.channel != "" {
      assert Expand(ch) == Expand([]) + ExpandOne("channel", Str(c.channel));
    } else {
      assert Expand(ch) == [];
    }
    assert Expand([("client", Str(c.clientId))]) == Expand([]) + ExpandOne("client", Str(c.clientId));
  }

  /** The pairs urlencoded in key mode: those of the sorted parameters, then the key. */
  lemma KeyPairs(key: string, ps: seq<(string, Value)>)
    ensures Expand(ps + [("key", Str(key))]) == Expand(ps) + [("key", key)]
  {
    ExpandAppend(ps, [("key", Str(key))]);
    assert Expand([("key", Str(key))]) == Expand([]) + ExpandOne("key", Str(key));
  }

  /** The last piece of the query decodes to the given key and value. */
  lemma LastPieceDecodes(pairs: seq<(string, string)>, k: string, v: string)
    ensures var pieces := SplitOn('&', UrlencodePairs(pairs + [(k, v)], false));
      |pieces| == |pairs| + 1 &&
      var kv := SplitOn('=', pieces[|pairs|]);
      |kv| == 2 && PercentDecode(kv[0]) == AsInts(Utf8(k)) && PercentDecode(kv[1]) == AsInts(Utf8(v))
  {
    UrlencodeParse(pairs + [(k, v)], false, |pairs|);
  }

  /** In enterprise mode the signed query ends with client=<client ID>; in key
      mode the query ends with key=<key>. */
  lemma CredentialLast(c: Credentials, path: string, params: Params, extra: map<string, Value>,
                       acceptsClientId: bool)
    ensures var ps := Merge(extra, params);
      && (acceptsClientId && Enterprise(c) ==>
            var pairs := Expand(ps) + (if c.channel != "" then [("channel", c.channel)] else []);
            Query(EnterpriseParams(c, ps)) == UrlencodePairs(pairs + [("client", c.clientId)], false))
      && (c.key != "" ==> Query(ps + [("key", Str(c.key))]) == UrlencodePairs(Expand(ps) + [("key", c.key)], false))
  {
    var ps := Merge(extra, params);
    EnterprisePairs(c, ps);
    KeyPairs(c.key, ps);
  }
}
