/** The persisted single-record store: the JSON file holding the last GS20
    value and the month it belongs to. The file is modelled as an optional
    JSON object; `None` means the file does not exist. */
module Gs20Store {
  import opened Values

  const ValueKey := "value"
  const LastUpdatedKey := "last_updated"

  /** A decoded JSON object. */
  type Record = map<string, PyVal>

  /** The object `save_data` writes: exactly the two keys, nothing else. */
  function SavedRecord(value: real, date: string): (m: Record)
    ensures m.Keys == {ValueKey, LastUpdatedKey}
    ensures m[ValueKey] == PyNum(value) && m[LastUpdatedKey] == PyStr(date)
  {
    map[ValueKey := PyNum(value), LastUpdatedKey := PyStr(date)]
  }

  /** `data.get(key, '')`. */
  function Lookup(m: Record, key: string): PyVal {
    if key in m then m[key] else PyStr("")
  }

  /** Opening the file and reading one key: `None` when there is no file,
      the empty string when the key is missing. */
  function ReadField(file: Option<Record>, key: string): (r: Option<PyVal>)
    ensures r.None? <==> file.None?
    ensures file.Some? && key in file.value ==> r == Some(file.value[key])
    ensures file.Some? && key !in file.value ==> r == Some(PyStr(""))
  {
    match file
    case None => None
    case Some(m) => Some(Lookup(m, key))
  }

  class Store {
    /** The file's content; `None` while the file does not exist. */
    var file: Option<Record>

    constructor (initial: Option<Record>)
      ensures file == initial
    {
      file := initial;
    }

    /** `get_last_saved_gs20_value`. */
    function LastSavedValue(): (v: Option<PyVal>)
      reads this
      ensures v.None? <==> file.None?
      ensures file.Some? && ValueKey in file.value ==> v == Some(file.value[ValueKey])
      ensures file.Some? && ValueKey !in file.value ==> v == Some(PyStr(""))
    {
      ReadField(file, ValueKey)
    }

    /** `get_last_updated_month`. */
    function LastUpdatedMonth(): (v: Option<PyVal>)
      reads this
      ensures v.None? <==> file.None?
      ensures file.Some? && LastUpdatedKey in file.value ==> v == Some(file.value[LastUpdatedKey])
      ensures file.Some? && LastUpdatedKey !in file.value ==> v == Some(PyStr(""))
    {
      ReadField(file, LastUpdatedKey)
    }

    /** `save_data`: overwrites the whole file with the two-key object, so
        the two readers then give back exactly what was saved. */
    method SaveData(value: real, date: string)
      modifies this
      ensures file == Some(SavedRecord(value, date))
      ensures LastSavedValue() == Some(PyNum(value))
      ensures LastUpdatedMonth() == Some(PyStr(date))
    {
      file := Some(SavedRecord(value, date));
    }
  }

  /** With no file on disk, both readers answer `None`, and `None` is never
      a month label. */
  lemma EmptyStoreReadsNone(month: string)
    ensures ReadField(None, ValueKey) == None
    ensures ReadField(None, LastUpdatedKey) == None
    ensures ReadField(None, LastUpdatedKey) != Some(PyStr(month))
  {
  }
}
