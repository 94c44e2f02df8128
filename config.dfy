// The settings of config.py: how the API id is read from the environment and from the saved
// file, which errors `validate` reports, and the dictionary `save_to_file` writes.

module Configuration {
  import opened Wrappers
  import opened Text

  /**
   * The values a setting can hold once read from the environment or from the JSON file
   * (JSON numbers with a fraction, arrays and objects are not modelled).
   */
  datatype Json = JNull | JBool(b: bool) | JInt(i: int) | JStr(s: string)

  /** Python's truth value. */
  predicate Truthy(v: Json) {
    match v
    case JNull => false
    case JBool(b) => b
    case JInt(i) => i != 0
    case JStr(s) => s != ""
  }

  /** Python's `str(v)`. */
  function PyStr(v: Json): string {
    match v
    case JNull => "None"
    case JBool(b) => if b then "True" else "False"
    case JInt(i) => IntToDecimal(i)
    case JStr(s) => s
  }

  /** `int(s)` succeeds: optional white space around an optionally signed run of digits. */
  predicate IsIntText(s: string) {
    var t := Strip(s);
    IsDigitString(t) || (|t| > 1 && (t[0] == '+' || t[0] == '-') && IsDigitString(t[1..]))
  }

  /** `int(v)` succeeds (`None` raises a TypeError). */
  predicate IntConvertible(v: Json) {
    match v
    case JNull => false
    case JBool(_) => true
    case JInt(_) => true
    case JStr(s) => IsIntText(s)
  }

  /** `int(s) if s and s.isdigit() else ""`: a digit string becomes its value, anything else "". */
  function ParseApiId(s: string): (v: Json)
    ensures v.JInt? <==> IsDigitString(s)
    ensures v.JInt? ==> v.i >= 0 && v.i == ParseDigits(s)
    ensures !v.JInt? ==> v == JStr("")
  {
    if s != "" && IsDigitString(s) then JInt(ParseDigits(s)) else JStr("")
  }

  /** The decimal text of a number parses back to it. */
  lemma ParseApiIdOfDecimal(n: nat)
    ensures ParseApiId(NatToDecimal(n)) == JInt(n)
  {
    ParseNatToDecimal(n);
  }

  /** `os.getenv(key) or ""` */
  function EnvText(env: map<string, string>, key: string): (s: string)
    ensures key in env ==> s == env[key]
    ensures key !in env ==> s == ""
  {
    if key in env then env[key] else ""
  }

  /** The three settings that are saved and loaded. */
  datatype Credentials = Credentials(apiId: Json, apiHash: Json, phone: Json)

  /** After a load, a string api_id goes through the same digit rule as the environment's. */
  function NormaliseId(v: Json): (r: Json)
    ensures !v.JStr? ==> r == v
    ensures v.JStr? ==> r == ParseApiId(v.s)
  {
    if v.JStr? then ParseApiId(v.s) else v
  }

  /** `load_from_file` on a file holding the JSON object `data`. */
  function Loaded(c: Credentials, data: map<string, Json>): (r: Credentials)
    ensures "api_id" in data ==> r.apiId == NormaliseId(data["api_id"])
    ensures "api_id" !in data ==> r.apiId == NormaliseId(c.apiId)
    ensures "api_hash" in data ==> r.apiHash == data["api_hash"]
    ensures "api_hash" !in data ==> r.apiHash == c.apiHash
    ensures "phone" in data ==> r.phone == data["phone"]
    ensures "phone" !in data ==> r.phone == c.phone
    ensures !(r.apiId.JStr? && r.apiId.s != "")
  {
    var id := if "api_id" in data then data["api_id"] else c.apiId;
    Credentials(NormaliseId(id),
                if "api_hash" in data then data["api_hash"] else c.apiHash,
                if "phone" in data then data["phone"] else c.phone)
  }

  /** The object `save_to_file` writes: the api_id as its `str`, the other two as they are. */
  function Saved(c: Credentials): (data: map<string, Json>)
    ensures data.Keys == {"api_id", "api_hash", "phone"}
    ensures data["api_id"] == JStr(PyStr(c.apiId))
  {
    map["api_id" := JStr(PyStr(c.apiId)), "api_hash" := c.apiHash, "phone" := c.phone]
  }

  /** The api_id values that leave a save-then-load unchanged. */
  predicate SurvivesSave(v: Json) {
    (v.JInt? && v.i >= 0) || v == JStr("")
  }

  /**
   * Saving and loading again restores the three settings exactly when the api_id is a
   * non-negative number or empty; whatever was loaded before does not matter.
   */
  lemma {:induction false} SaveLoadRoundTrip(c: Credentials, before: Credentials)
    ensures Loaded(before, Saved(c)) == c <==> SurvivesSave(c.apiId)
  {
    var back := Loaded(before, Saved(c)).apiId;
    assert back == ParseApiId(PyStr(c.apiId));
    match c.apiId
    case JInt(i) =>
      if i >= 0 {
        ParseApiIdOfDecimal(i);
      } else {
        IntToDecimalDigits(i);
      }
    case JStr(s) =>
    case JNull =>
      assert !IsDigit(PyStr(c.apiId)[0]);
    case JBool(b) =>
      assert !IsDigit(PyStr(c.apiId)[0]);
  }

  /** After a load the api_id is never a non-empty string, so `validate` never reports it as non-numeric. */
  lemma LoadedIdIsNumericOrFalsy(c: Credentials, data: map<string, Json>)
    ensures var id := Loaded(c, data).apiId;
            Truthy(id) ==> IntConvertible(id)
  {
  }

  const NoApiId := "API ID не указан"
  const NoApiHash := "API HASH не указан"
  const ApiIdNotNumber := "API ID должен быть числом"

  lemma ErrorsDistinct()
    ensures NoApiId != NoApiHash && NoApiId != ApiIdNotNumber && NoApiHash != ApiIdNotNumber
  {
    assert |NoApiId| != |NoApiHash| && |NoApiId| != |ApiIdNotNumber| && |NoApiHash| != |ApiIdNotNumber|;
  }

  /** The position of each error in `validate`'s list. */
  function ErrorRank(e: string): nat {
    if e == NoApiId then 0 else if e == NoApiHash then 1 else 2
  }

  /** The list `validate` builds, given which of its three checks fail. */
  function ErrorList(missingId: bool, missingHash: bool, notNumber: bool): seq<string> {
    (if missingId then [NoApiId] else []) + (if missingHash then [NoApiHash] else []) +
    (if notNumber then [ApiIdNotNumber] else [])
  }

  /** Each error is listed exactly when its check fails, and the errors keep the order of the checks. */
  lemma ErrorListFacts(missingId: bool, missingHash: bool, notNumber: bool)
    ensures var errors := ErrorList(missingId, missingHash, notNumber);
            && (NoApiId in errors <==> missingId)
            && (NoApiHash in errors <==> missingHash)
            && (ApiIdNotNumber in errors <==> notNumber)
            && (forall k :: 0 <= k < |errors| ==> errors[k] in {NoApiId, NoApiHash, ApiIdNotNumber})
            && (forall k :: 0 <= k < |errors| - 1 ==> ErrorRank(errors[k]) < ErrorRank(errors[k + 1]))
  {
    ErrorsDistinct();
    var errors := ErrorList(missingId, missingHash, notNumber);
    if missingId {
      if missingHash {
        if notNumber { assert errors == [NoApiId, NoApiHash, ApiIdNotNumber]; }
        else { assert errors == [NoApiId, NoApiHash]; }
      } else {
        if notNumber { assert errors == [NoApiId, ApiIdNotNumber]; }
        else { assert errors == [NoApiId]; }
      }
    } else {
      if missingHash {
        if notNumber { assert errors == [NoApiHash, ApiIdNotNumber]; }
        else { assert errors == [NoApiHash]; }
      } else {
        if notNumber { assert errors == [ApiIdNotNumber]; }
        else { assert errors == []; }
      }
    }
  }

  /** The settings object; only the fields that other parts of the program read are kept. */
  class Config {
    var apiId: Json
    var apiHash: Json
    var phone: Json
    var saveMedia: bool
    var monitorMessages: bool
    var monitorReactions: bool
    var monitorEvents: bool
    var monitorMedia: bool
    var monitorContacts: bool
    var monitorGroups: bool

    function Current(): Credentials
      reads this
    {
      Credentials(apiId, apiHash, phone)
    }

    /** `Config()` from the environment; every monitoring switch starts on. */
    constructor(env: map<string, string>)
      ensures apiId == ParseApiId(EnvText(env, "API_ID"))
      ensures apiHash == JStr(EnvText(env, "API_HASH")) && phone == JStr(EnvText(env, "PHONE"))
      ensures SurvivesSave(apiId)
      ensures saveMedia && monitorMessages && monitorReactions && monitorEvents
      ensures monitorMedia && monitorContacts && monitorGroups
    {
      apiId := ParseApiId(EnvText(env, "API_ID"));
      apiHash := JStr(EnvText(env, "API_HASH"));
      phone := JStr(EnvText(env, "PHONE"));
      saveMedia := true;
      monitorMessages := true;
      monitorReactions := true;
      monitorEvents := true;
      monitorMedia := true;
      monitorContacts := true;
      monitorGroups := true;
    }

    /**
     * `load_from_file`: `data` is the file's JSON object, or `None` when the file is missing or
     * cannot be read as an object, in which case nothing changes.
     */
    method LoadFromFile(data: Option<map<string, Json>>)
      modifies this`apiId, this`apiHash, this`phone
      ensures data.None? ==> Current() == old(Current())
      ensures data.Some? ==> Current() == Loaded(old(Current()), data.value)
    {
      if data.Some? {
        var d := data.value;
        apiId := if "api_id" in d then d["api_id"] else apiId;
        apiHash := if "api_hash" in d then d["api_hash"] else apiHash;
        phone := if "phone" in d then d["phone"] else phone;
        if apiId.JStr? {
          apiId := if IsDigitString(apiId.s) then JInt(ParseDigits(apiId.s)) else JStr("");
        }
      }
    }

    /** `save_to_file`: the object written to the file. */
    method SaveToFile() returns (data: map<string, Json>)
      ensures data == Saved(Current())
      ensures Loaded(Current(), data) == Current() <==> SurvivesSave(apiId)
    {
      data := map["api_id" := JStr(PyStr(apiId)), "api_hash" := apiHash, "phone" := phone];
      SaveLoadRoundTrip(Current(), Current());
    }

    /** `validate`: the errors in the order they are checked. */
    method Validate() returns (errors: seq<string>)
      ensures NoApiId in errors <==> !Truthy(apiId)
      ensures NoApiHash in errors <==> !Truthy(apiHash)
      ensures ApiIdNotNumber in errors <==> Truthy(apiId) && !IntConvertible(apiId)
      ensures forall k :: 0 <= k < |errors| ==> errors[k] in {NoApiId, NoApiHash, ApiIdNotNumber}
      ensures forall k :: 0 <= k < |errors| - 1 ==> ErrorRank(errors[k]) < ErrorRank(errors[k + 1])
    {
      errors := [];
      if !Truthy(apiId) {
        errors := errors + [NoApiId];
      }
      if !Truthy(apiHash) {
        errors := errors + [NoApiHash];
      }
      if Truthy(apiId) && !IntConvertible(apiId) {
        errors := errors + [ApiIdNotNumber];
      }
      assert errors == ErrorList(!Truthy(apiId), !Truthy(apiHash), Truthy(apiId) && !IntConvertible(apiId));
      ErrorListFacts(!Truthy(apiId), !Truthy(apiHash), Truthy(apiId) && !IntConvertible(apiId));
    }
  }
}
