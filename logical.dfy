/** The Vault storage the backend persists its configuration in. */
module Logical {
  import opened Common
  import opened Errors

  /** The JSON values a flat record can hold. */
  datatype JsonValue = JNull | JBool(b: bool) | JNumber(n: int) | JString(s: string)

  /** A JSON object, as `encoding/json` reads and writes a struct. */
  type JsonObject = map<string, JsonValue>

  /** A key-value store of JSON entries. `getFault` and `putFault` make every
      get, or every put, fail as a broken storage backend would. */
  class Storage {
    var entries: map<string, JsonObject>
    var getFault: bool
    var putFault: bool

    constructor (entries: map<string, JsonObject>, getFault: bool, putFault: bool)
      ensures this.entries == entries && this.getFault == getFault && this.putFault == putFault
    {
      this.entries := entries;
      this.getFault := getFault;
      this.putFault := putFault;
    }

    /** `Storage.Get`: the entry under `key`, none, or an error. */
    function Get(key: string): (r: Result<Option<JsonObject>, Error>)
      reads this
      ensures r.Failure? <==> getFault
      ensures r.Success? ==> (r.value.Some? <==> key in entries)
      ensures r.Success? && key in entries ==> r.value == Some(entries[key])
    {
      if getFault then Failure(StorageFailure)
      else if key in entries then Success(Some(entries[key]))
      else Success(None)
    }

    /** `Storage.Put`: replaces the entry under `key`, unless the put fails. */
    method Put(key: string, value: JsonObject) returns (r: Outcome<Error>)
      modifies this
      ensures getFault == old(getFault) && putFault == old(putFault)
      ensures putFault ==> r == Fail(StorageFailure) && entries == old(entries)
      ensures !putFault ==> r == Pass && entries == old(entries)[key := value]
    {
      if putFault {
        r := Fail(StorageFailure);
      } else {
        entries := entries[key := value];
        r := Pass;
      }
    }
  }
}
