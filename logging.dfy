/**
 * The process-wide logger: the verbosity level of each debug channel and the
 * sequence of warnings and errors written so far (entries of type `E`).
 */
module Logging {

  class Logger<E> {
    var levels: map<string, int>
    var entries: seq<E>

    /** Writes one warning or error. */
    method Log(e: E)
      modifies this
      ensures entries == old(entries) + [e]
      ensures levels == old(levels)
    {
      entries := entries + [e];
    }

    /** Sets the verbosity of one channel. */
    method SetLevel(channel: string, level: int)
      modifies this
      ensures levels == old(levels)[channel := level]
      ensures entries == old(entries)
    {
      levels := levels[channel := level];
    }
  }
}
