// The result codes of the C interface, and a limit of its readers.
module Api {
  /** RUNNING is no code: the call has not returned yet. */
  datatype Code =
    | OK | SYS | NODATA | TOOSMALL | TOOBIG | BUSY | TIMEOUT | INTR | FORMAT | NOTSUP | STATE | RUNNING

  const ATTACH_RETRIES: nat := 2
}
