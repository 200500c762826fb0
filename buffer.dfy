/**
 * flushable_buffer.go: text is collected in a buffer and only reaches the
 * destination when Flush is called.
 *
 * The destination is an append-only character sequence; `failing` says
 * whether its Write call reports an error.
 */
module Buffer {

  class FlushableBuffer {
    /** The embedded bytes.Buffer: what has been written and not discarded. */
    var buf: string
    /** Everything the destination writer has accepted so far. */
    var dest: string
    /** The destination writer refuses writes. */
    var failing: bool

    /** NewFlushableBuffer: an empty buffer bound to the given destination. */
    constructor (dest: string, failing: bool)
      ensures this.buf == [] && this.dest == dest && this.failing == failing
    {
      this.buf := [];
      this.dest := dest;
      this.failing := failing;
    }

    /** A write appends to the buffer only. */
    method Write(s: string)
      modifies this`buf
      ensures buf == old(buf) + s
    {
      buf := buf + s;
    }

    /**
     * Flush hands the whole buffer to the destination in one write and keeps
     * the buffer as it is. A failing destination takes nothing.
     */
    method Flush() returns (n: nat, failed: bool)
      modifies this`dest
      ensures failed == failing
      ensures failed ==> n == 0 && dest == old(dest)
      ensures !failed ==> n == |buf| && dest == old(dest) + buf
    {
      if failing {
        n, failed := 0, true;
      } else {
        dest := dest + buf;
        n, failed := |buf|, false;
      }
    }

    /** Reset discards the buffered text. */
    method Reset()
      modifies this`buf
      ensures buf == []
    {
      buf := [];
    }
  }
}
