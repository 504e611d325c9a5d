/** The status filter options of the audit-log grid. */
module StatusSource {
  import opened AuditLogModel

  datatype StatusOption = StatusOption(value: string, text: string)

  function UpperCase(c: char): char {
    if 'a' <= c <= 'z' then (c as int - 'a' as int + 'A' as int) as char else c
  }

  /** A status value with its first letter upper-cased: its grid label. */
  function Capitalized(s: string): string {
    if s == [] then [] else [UpperCase(s[0])] + s[1..]
  }

  /**
   * One option per record status, in the order the statuses are declared,
   * each labelled with its own value capitalized.
   */
  function ToOptionArray(): (options: seq<StatusOption>)
    ensures |options| == |STATUSES| == 4
    ensures forall i :: 0 <= i < |options| ==> options[i].value == STATUSES[i]
    ensures forall i :: 0 <= i < |options| ==> options[i].text == Capitalized(options[i].value)
    ensures forall i, j :: 0 <= i < j < |options| ==> options[i].value != options[j].value
  {
    [
      StatusOption(STATUS_PENDING, "Pending"),
      StatusOption(STATUS_SUCCESS, "Success"),
      StatusOption(STATUS_EXPIRED, "Expired"),
      StatusOption(STATUS_FAILED, "Failed")
    ]
  }
}
