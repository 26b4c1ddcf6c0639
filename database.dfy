/** The two persistence operations the index synchronizer and GetX call:
    look a module record up by path, and upsert one. Their SQL is not part of
    this model; the table is a map from module path to the last known
    version, and the paths whose query or upsert fails are fixed sets. */
module Database {
  import opened Base

  datatype GoModule = GoModule(path: string, version: string)

  datatype DbError = QueryFailed

  class ModuleDb {
    var records: map<string, string>
    /** Paths for which GetGoModuleByPath returns an error. */
    const readFails: set<string>
    /** Paths for which UpsertGoModule returns an error. */
    const writeFails: set<string>

    constructor (records: map<string, string>, readFails: set<string>, writeFails: set<string>)
      ensures this.records == records && this.readFails == readFails && this.writeFails == writeFails
    {
      this.records := records;
      this.readFails := readFails;
      this.writeFails := writeFails;
    }

    method GetGoModuleByPath(path: string) returns (m: GoModule, found: bool, err: Option<DbError>)
      ensures err.Some? <==> path in readFails
      ensures err == None ==> (found <==> path in records)
      ensures err == None && found ==> m == GoModule(path, records[path])
    {
      if path in readFails {
        return GoModule(path, ""), false, Some(QueryFailed);
      }
      if path in records {
        return GoModule(path, records[path]), true, None;
      }
      m, found, err := GoModule(path, ""), false, None;
    }

    method UpsertGoModule(m: GoModule) returns (err: Option<DbError>)
      modifies this`records
      ensures err.Some? <==> m.path in writeFails
      ensures records == if err == None then old(records)[m.path := m.version] else old(records)
    {
      if m.path in writeFails {
        return Some(QueryFailed);
      }
      records := records[m.path := m.version];
      err := None;
    }
  }
}
