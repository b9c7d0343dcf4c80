/** The persisted document (src/services/storage.ts), reduced to the value the
    key holds and the number of times it was written. */
module Storage {
  import opened Types

  class Store {
    /** The document stored under the application's key. */
    var data: AppData
    /** How many times the document has been written back. */
    var saves: nat

    /** Nothing stored yet: loading yields the all-empty document. */
    constructor ()
      ensures data == EmptyData && saves == 0
    {
      data := EmptyData;
      saves := 0;
    }

    /** Reads the whole document. */
    method Load() returns (d: AppData)
      ensures d == data
    {
      d := data;
    }

    /** Replaces the whole document. */
    method Save(d: AppData)
      modifies this
      ensures data == d && saves == old(saves) + 1
    {
      data := d;
      saves := saves + 1;
    }
  }
}
