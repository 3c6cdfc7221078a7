/** Decoded JSON values and the file system the session and configuration
    files live in, as a map from path to content. */
module JsonFiles {
  import opened Wrappers

  /** A value `json.load` produces. Numbers are kept as reals. */
  datatype Json =
    | JNull
    | JBool(b: bool)
    | JNum(n: real)
    | JStr(s: string)
    | JArr(items: seq<Json>)
    | JObj(fields: map<string, Json>)

  /** Python truthiness of a decoded value. */
  predicate Truthy(j: Json)
  {
    match j
    case JNull => false
    case JBool(b) => b
    case JNum(n) => n != 0.0
    case JStr(s) => s != ""
    case JArr(a) => a != []
    case JObj(m) => m != map[]
  }

  /** `len` of a decoded value; None where `len` raises. */
  function Len(j: Json): Option<nat>
  {
    match j
    case JStr(s) => Some(|s|)
    case JArr(items) => Some(|items|)
    case JObj(m) => Some(|m|)
    case _ => None
  }

  /** `dict.get` with a default. */
  function Get(m: map<string, Json>, key: string, default: Json): Json
  {
    if key in m then m[key] else default
  }

  /** What an existing path holds: a file `json.load` parses, or one that
      cannot be opened or parsed. */
  datatype Contents = Parsed(value: Json) | Unreadable

  /** The file system; a path that is not a key does not exist. */
  type Files = map<string, Contents>

  /** How a `json.dump` into a path ended: written, failed before the file
      was opened (nothing changes), or failed half-way (the file is left
      truncated and no longer parses). */
  datatype WriteOutcome = Written | OpenFailed | DumpFailed

  function AfterWrite(fs: Files, path: string, data: Json, w: WriteOutcome): Files
  {
    match w
    case Written => fs[path := Parsed(data)]
    case OpenFailed => fs
    case DumpFailed => fs[path := Unreadable]
  }

  /** The machine's disk, shared by everything that reads or writes files. */
  class Disk {
    var files: Files

    constructor (fs: Files)
      ensures files == fs
    {
      files := fs;
    }
  }
}
