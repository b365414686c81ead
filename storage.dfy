/**
 * The leaderboard's JSON-file store (my-express-api/src/utils/storage.ts).
 *
 * `Low` is the lowdb database object: `data` is `db.data` (None models null) and `file` is
 * the content of the backing JSON file (None when the file does not exist yet). Reading and
 * writing the file are abstract: `Read` loads the file's content into `data`, `Write`
 * stores `data` into the file. `Storage` is the module's own state: the one `db` object
 * and the `initialized` flag that `getDb` flips.
 */
module Storage {

  import opened Wrappers
  import opened LeaderboardTypes

  class Low {
    var data: Option<LeaderboardData>
    var file: Option<LeaderboardData>
    ghost var readCount: nat
    ghost var writeCount: nat

    /** `new Low(adapter, { entries: [] })` over a file holding `file`. */
    constructor (file: Option<LeaderboardData>)
      ensures this.data == Some(LeaderboardData([])) && this.file == file
      ensures readCount == 0 && writeCount == 0
    {
      this.data := Some(LeaderboardData([]));
      this.file := file;
      readCount, writeCount := 0, 0;
    }

    /** `db.read()`: the adapter's result, null for a missing file, becomes `db.data`. */
    method Read()
      modifies this
      ensures data == file && file == old(file)
      ensures readCount == old(readCount) + 1 && writeCount == old(writeCount)
    {
      data := file;
      readCount := readCount + 1;
    }

    /** `db.write()`: the whole of `db.data` is written back to the file. */
    method Write()
      requires data.Some?
      modifies this
      ensures file == data && data == old(data)
      ensures writeCount == old(writeCount) + 1 && readCount == old(readCount)
    {
      file := data;
      writeCount := writeCount + 1;
    }
  }

  class Storage {
    const db: Low
    var initialized: bool

    /** Once initialised, `db.data` is never null. */
    ghost predicate Valid()
      reads this, db
    {
      initialized ==> db.data.Some?
    }

    /** The entries that `getDb` makes current: the loaded ones once initialised, otherwise
        what the first read will find in the file (none when there is no file). */
    ghost function Entries(): seq<Entry>
      reads this, db
      requires Valid()
    {
      if initialized then db.data.value.entries
      else if db.file.Some? then db.file.value.entries
      else []
    }

    /** The module's load: `db` is built over the file and `initialized` is false. */
    constructor (file: Option<LeaderboardData>)
      ensures Valid() && !initialized && fresh(db)
      ensures db.file == file && db.readCount == 0 && db.writeCount == 0
    {
      db := new Low(file);
      initialized := false;
    }

    /** `getDb()`: the first call reads the file and replaces a null `data` by
        `{ entries: [] }`; every call returns the same `db`. */
    method GetDb() returns (d: Low)
      requires Valid()
      modifies this, db
      ensures Valid() && initialized && d == db
      ensures db.data == Some(LeaderboardData(old(Entries())))
      ensures Entries() == old(Entries())
      ensures db.file == old(db.file) && db.writeCount == old(db.writeCount)
      ensures old(initialized) ==> db.data == old(db.data) && db.readCount == old(db.readCount)
      ensures !old(initialized) ==> db.readCount == old(db.readCount) + 1
      ensures !old(initialized) && old(db.file).Some? ==> db.data == old(db.file)
    {
      if !initialized {
        db.Read();
        if db.data.None? {
          db.data := Some(LeaderboardData([]));
        }
        initialized := true;
      }
      d := db;
    }
  }
}
