/** The output file the generator writes to. */
module Output {

  /** An append-only stream: `chunks` is every piece written so far, in
      the order of the `write` calls; the file's text is their
      concatenation. */
  class Stream {
    var chunks: seq<string>

    constructor ()
      ensures chunks == []
    {
      chunks := [];
    }

    method Write(s: string)
      modifies this
      ensures chunks == old(chunks) + [s]
    {
      chunks := chunks + [s];
    }
  }
}
