/** The transaction boundary: reference/implementation/src/agent_pay/unit_of_work.py. */
module Connections {
  import opened Domain

  class Connection {
    var db: Db     // what the open transaction reads and writes
    var saved: Db  // what is committed

    constructor (initial: Db)
      ensures db == saved == initial
    {
      db, saved := initial, initial;
    }

    method Begin()
      modifies this`saved
      ensures saved == db
    {
      saved := db;
    }

    method End(succeeded: bool)
      modifies this
      ensures db == saved == if succeeded then old(db) else old(saved)
    {
      if succeeded {
        saved := db;
      } else {
        db := saved;
      }
    }
  }
}
