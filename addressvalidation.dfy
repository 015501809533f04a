/** The Address Validation API endpoint (googlemaps/addressvalidation.py). */
module AddressValidation {
  import opened Maybe
  import opened Values
  import opened Exceptions
  import opened Request

  const AddressValidationBaseUrl := "https://addressvalidation.googleapis.com"

  /** addressvalidation._addressvalidation_extract: the decoded body, whatever the status. */
  function Extract(resp: Response): (r: Result<Value>)
    ensures r.Ok? <==> resp.json.Some?
    ensures r.Ok? ==> r.value == resp.json.value
    ensures r.Err? ==> r.error == JsonDecodeError
  {
    Json(resp)
  }

  /** The status code plays no part in what the extractor returns. */
  lemma StatusIgnored(code: int, other: int, json: Option<Value>)
    ensures Extract(Response(code, json)) == Extract(Response(other, json))
  {
  }

  /** The guard on enableUspsCass as written: `v is not False or v is not None`. */
  predicate UspsGuardAsWritten(v: Value) {
    v != Bool(false) || v != NoneV
  }

  /** No value fails both halves of the guard, so it never skips the assignment. */
  lemma UspsGuardAlwaysHolds(v: Value)
    ensures UspsGuardAsWritten(v)
  {
    assert v == Bool(false) ==> v != NoneV;
  }

  /** The guard as evidently intended: `v is not False and v is not None`. */
  predicate UspsGuard(v: Value) {
    v != Bool(false) && v != NoneV
  }

  /** The corrected guard leaves out exactly the two values that ask for the
      default, and keeps None out of the request body. */
  lemma UspsGuardOmitsDefaults(v: Value)
    ensures !UspsGuard(v) <==> v == NoneV || v == Bool(false)
    ensures UspsGuardAsWritten(NoneV) && !UspsGuard(NoneV)
  {
  }

  /** The "address" dict of addressvalidation: the address lines first, then
      the region code and the locality, each when not None. */
  method AddressEntries(addressLines: Value, regionCode: Value, locality: Value)
    returns (address: seq<(string, Value)>)
    ensures DistinctKeys(address)
    ensures |address| >= 1 && address[0] == ("addressLines", addressLines)
    ensures Lookup(address, "regionCode") == IfNotNone(regionCode)
    ensures Lookup(address, "locality") == IfNotNone(locality)
    ensures forall i :: 0 <= i < |address| ==> address[i].0 in {"addressLines", "regionCode", "locality"}
  {
    address := [("addressLines", addressLines)];
    assert !HasKey(address, "regionCode") && !HasKey(address, "locality");
    if regionCode != NoneV {
      address := Put(address, "regionCode", regionCode);
      assert address == [("addressLines", addressLines), ("regionCode", regionCode)];
    }
    assert !HasKey(address, "locality");
    assert Lookup(address, "regionCode") == IfNotNone(regionCode);
    ghost var before := address;
    if locality != NoneV {
      address := Put(address, "locality", locality);
      assert address == before + [("locality", locality)];
    }
  }

  /** The "address" value of the request body: a dict with the address lines
      first and, when not None, the region code and the locality. */
  predicate AddressValue(address: Value, addressLines: Value, regionCode: Value, locality: Value) {
    && address.Dict?
    && DistinctKeys(address.entries)
    && |address.entries| >= 1 && address.entries[0] == ("addressLines", addressLines)
    && Lookup(address.entries, "regionCode") == IfNotNone(regionCode)
    && Lookup(address.entries, "locality") == IfNotNone(locality)
    && forall i :: 0 <= i < |address.entries| ==> address.entries[i].0 in {"addressLines", "regionCode", "locality"}
  }

  /** addressvalidation.addressvalidation, with the corrected guard: a POST to
      the Address Validation base URL with no query parameters, whose JSON body
      holds the address lines and, when not None, the region code and locality
      inside "address". */
  method ValidateAddress(addressLines: Value, regionCode: Value, locality: Value, enableUspsCass: Value)
    returns (call: ApiCall)
    ensures call.path == "/v1:validateAddress" && call.params == DictParams(map[])
    ensures call.baseUrl == Some(AddressValidationBaseUrl) && call.extractor == AddressValidationBody
    ensures call.acceptsClientId && !call.stream && call.post == Whole
    ensures call.postJson.Some? && "address" in call.postJson.value
    ensures call.postJson.value.Keys <= {"address", "enableUspsCass"}
    ensures Get(call.postJson.value, "enableUspsCass") ==
      if UspsGuard(enableUspsCass) then Some(enableUspsCass) else None
    ensures AddressValue(call.postJson.value["address"], addressLines, regionCode, locality)
  {
    var address := AddressEntries(addressLines, regionCode, locality);
    var params := map["address" := Dict(address)];
    if UspsGuard(enableUspsCass) {
      params := params["enableUspsCass" := enableUspsCass];
    }
    call := ApiCall("/v1:validateAddress", DictParams(map[]), Some(AddressValidationBaseUrl), true,
      AddressValidationBody, Some(params), false, Whole);
  }

  /** addressvalidation.addressvalidation as written: the same request, except
      that the guard never skips the assignment, so the body always carries
      "enableUspsCass", as null on a call that leaves it at its default None. */
  method ValidateAddressAsWritten(addressLines: Value, regionCode: Value, locality: Value, enableUspsCass: Value)
    returns (call: ApiCall)
    ensures call.path == "/v1:validateAddress" && call.params == DictParams(map[])
    ensures call.baseUrl == Some(AddressValidationBaseUrl) && call.extractor == AddressValidationBody
    ensures call.acceptsClientId && !call.stream && call.post == Whole
    ensures call.postJson.Some? && call.postJson.value.Keys == {"address", "enableUspsCass"}
    ensures Get(call.postJson.value, "enableUspsCass") == Some(enableUspsCass)
    ensures AddressValue(call.postJson.value["address"], addressLines, regionCode, locality)
  {
    var address := AddressEntries(addressLines, regionCode, locality);
    var params := map["address" := Dict(address)];
    if UspsGuardAsWritten(enableUspsCass) {
      params := params["enableUspsCass" := enableUspsCass];
    }
    call := ApiCall("/v1:validateAddress", DictParams(map[]), Some(AddressValidationBaseUrl), true,
      AddressValidationBody, Some(params), false, Whole);
  }
}
