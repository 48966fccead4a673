/** The data file "data.dat": an append-only sequence of samples with an
    open flag. The byte encoding fwrite produces is not modelled. */
module Storage {
  import opened Edl

  class DataFile {
    var contents: seq<Float>
    var open: bool
    /** How many times fclose has been called on this file. */
    var closes: nat

    /** fopen(..., "wb+"): a new, empty, open file. */
    constructor Open()
      ensures contents == [] && open && closes == 0
    {
      contents, open, closes := [], true, 0;
    }

    /** fwrite of one float. */
    method Write(x: Float)
      requires open
      modifies this`contents
      ensures contents == old(contents) + [x]
    {
      contents := contents + [x];
    }

    /** fclose; closing a file twice is undefined in C, so it must be open. */
    method Close()
      requires open
      modifies this`open, this`closes
      ensures !open && closes == old(closes) + 1
    {
      open := false;
      closes := closes + 1;
    }
  }
}
