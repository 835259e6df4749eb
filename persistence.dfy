/** The save record and its persistence (`load_save` / `save_game` in
    eternal_loop/src/core/game.py), as a cell that holds the last record
    written. The JSON file, its parsing and the filesystem are not modelled:
    a missing or unreadable file is an empty cell. Each write has one of
    three outcomes, decided by the environment at the time of the call: the
    record is stored; opening the file for writing fails and the file keeps
    its old contents; or the open succeeds, which empties the file, and the
    dump fails, which leaves a file that no longer parses. */
module Persistence {
  import opened Common

  datatype SaveData = SaveData(bestSize: real, sessions: int, achievements: seq<string>)

  /** The record load_save returns when the file cannot be read. */
  const Default := SaveData(0.0, 0, [])

  /** What one save_game call does to the file: `Stored` when it succeeds,
      `Refused` when `open(path, "w")` raises, `Truncated` when the open
      succeeds (emptying the file) and `json.dump` or the close then raises. */
  datatype Outcome = Stored | Refused | Truncated

  /** What load_save returns for a given file content. */
  function Loaded(file: Option<SaveData>): SaveData
  {
    match file
    case Some(d) => d
    case None => Default
  }

  /** What the file holds after save_game(d) with outcome `o`. */
  function Written(file: Option<SaveData>, o: Outcome, d: SaveData): Option<SaveData>
  {
    match o
    case Stored => Some(d)
    case Refused => file
    case Truncated => None
  }

  /** Reading back after a save: a stored record comes back as written; a
      refused write leaves what the earlier load gave; a truncated write
      loses everything, and the next load gives the default record. */
  lemma LoadAfterSave(file: Option<SaveData>, d: SaveData)
    ensures Loaded(Written(file, Stored, d)) == d
    ensures Loaded(Written(file, Refused, d)) == Loaded(file)
    ensures Loaded(Written(file, Truncated, d)) == Default
  {
  }

  /** The file after a save never holds a record other than the one being
      written or the one it held before, and only a successful write can
      make a missing file readable. */
  lemma WrittenHoldsOldOrNew(file: Option<SaveData>, o: Outcome, d: SaveData)
    ensures Written(file, o, d) in {None, file, Some(d)}
    ensures file.None? && Written(file, o, d).Some? ==> o == Stored
  {
  }

  class SaveStore {
    /** None: no file, or a file that does not parse. */
    var file: Option<SaveData>

    constructor (file: Option<SaveData>)
      ensures this.file == file
    {
      this.file := file;
    }

    /** load_save: the stored record, or the default on any failure. */
    method Load() returns (d: SaveData)
      ensures d == Loaded(file)
      ensures file.None? ==> d == SaveData(0.0, 0, [])
    {
      match file
      case Some(v) => d := v;
      case None => d := Default;
    }

    /** save_game with the write's outcome `o`: store the record, leave the
        file as it was, or leave it empty; every failure is swallowed. */
    method Save(d: SaveData, o: Outcome)
      modifies this
      ensures file == Written(old(file), o, d)
    {
      match o
      case Stored => file := Some(d);
      case Refused =>
      case Truncated => file := None;
    }
  }
}
