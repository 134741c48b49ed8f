/**
 * The hardware interrupt lines the driver can bind to, and how the line that
 * the platform resolves for a pin is stored in the sensor's configuration.
 *
 * The platform maps a pin to an interrupt line number, or to the sentinel
 * NOT_AN_INTERRUPT (-1) when the pin cannot raise interrupts. The dispatch
 * table has one slot per supported line, lines 0 and 1.
 */
module InterruptLines {
  import opened Wrappers

  /** The platform's "pin has no interrupt line" sentinel. */
  const NOT_AN_INTERRUPT: int := -1

  /** Number of slots in the dispatch table (`pSensors[2]`). */
  const LINE_COUNT: int := 2

  /** An interrupt line that has a slot in the dispatch table. */
  type LineIndex = i: int | 0 <= i < LINE_COUNT

  // -------------------------------------------------------------------------
  // As written: the configuration stores the resolved line in an unsigned
  // bit-field two bits wide, and the driver then compares that field with
  // NOT_AN_INTERRUPT to decide whether the pin is usable.
  // -------------------------------------------------------------------------

  /** What a two-bit unsigned bit-field holds after `resolved` is assigned to it. */
  function StoredIrqAsWritten(resolved: int): (r: int)
    ensures 0 <= r < 4
    ensures (resolved - r) % 4 == 0
  {
    resolved % 4
  }

  /** The guard `IRQ == NOT_AN_INTERRUPT` evaluated on the stored field. */
  predicate NoLineGuardFiresAsWritten(resolved: int)
  {
    StoredIrqAsWritten(resolved) == NOT_AN_INTERRUPT
  }

  /**
   * As written, the "invalid interrupt pin" guard can never fire: a
   * non-negative field never equals -1, whatever the platform resolved.
   */
  lemma NoLineGuardNeverFiresAsWritten(resolved: int)
    ensures !NoLineGuardFiresAsWritten(resolved)
  {
  }

  /**
   * As written, a pin without an interrupt line is stored as line 3, which
   * passes the guard and then indexes the two-slot table past its end.
   */
  lemma NotAnInterruptStoredAsLineThree()
    ensures StoredIrqAsWritten(NOT_AN_INTERRUPT) == 3
    ensures !NoLineGuardFiresAsWritten(NOT_AN_INTERRUPT)
    ensures StoredIrqAsWritten(NOT_AN_INTERRUPT) >= LINE_COUNT
  {
  }

  /**
   * As written, a platform answer of 2 or 3 passes the guard and indexes the
   * table past its end, and an answer of 4 or 5 is stored as line 0 or 1, so
   * the sensor takes another line's slot and handler.
   */
  lemma LinesAboveOneAsWritten()
    ensures StoredIrqAsWritten(2) == 2 && StoredIrqAsWritten(3) == 3
    ensures StoredIrqAsWritten(2) >= LINE_COUNT && !NoLineGuardFiresAsWritten(2)
    ensures StoredIrqAsWritten(4) == 0 && StoredIrqAsWritten(5) == 1
  {
  }

  // -------------------------------------------------------------------------
  // Intended: a pin either has one of the supported lines or has none.
  // -------------------------------------------------------------------------

  /**
   * The line a sensor binds to, given the platform's answer for its pin; any
   * answer that is not a slot of the table (the sentinel included) means the
   * pin has no usable line.
   */
  function ResolveLine(resolved: int): (r: Option<LineIndex>)
    ensures r.Some? <==> 0 <= resolved < LINE_COUNT
    ensures r.Some? ==> r.value == resolved
  {
    if 0 <= resolved < LINE_COUNT then Some(resolved) else None
  }

  /**
   * With the intended resolution the sentinel, and every answer without a
   * slot in the table, is recognised as "no line".
   */
  lemma NotAnInterruptHasNoLine()
    ensures ResolveLine(NOT_AN_INTERRUPT) == None
    ensures ResolveLine(2) == None && ResolveLine(3) == None
    ensures ResolveLine(4) == None && ResolveLine(5) == None
  {
  }
}
