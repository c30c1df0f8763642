/** The project's undo history, reduced to what the time-track menu uses of it:
    every pushed state is recorded as its (description, short description)
    pair, in order. */
module History {

  datatype Entry = Entry(description: string, shortDescription: string)

  class ProjectHistory {
    var entries: seq<Entry>

    constructor ()
      ensures entries == []
    {
      entries := [];
    }

    /** Records one undoable step. */
    method PushState(description: string, shortDescription: string)
      modifies this
      ensures entries == old(entries) + [Entry(description, shortDescription)]
    {
      entries := entries + [Entry(description, shortDescription)];
    }
  }
}
