// backend/api/date_utils.py: the strict date parsing and formatting the API
// shares between its routes. Unlike the ETL helpers, a bad date raises.

module ApiDateUtils {
  import opened Common
  import opened EtlDateUtils

  /**
   * `parse_date_string`: `strptime(s, '%Y-%m-%d')`; every rejected text
   * raises ValueError, so there is no None result.
   */
  function ParseDateString(s: string): (r: Result<Date>)
    ensures r.Ok? ==> ValidDate(r.value)
    ensures r.Failed? ==> r.reason == Invalid
    ensures r.Ok? <==> StrptimeYmd(s).Some?
  {
    match StrptimeYmd(s)
    case Some(d) => Ok(d)
    case None => Failed(Invalid)
  }

  /** `format_date_for_api`: `strftime('%Y-%m-%d')`, four-digit year, two-digit month and day. */
  function FormatDateForApi(d: Date): (s: string)
    requires ValidDate(d)
    ensures |s| == 10 && s[4] == '-' && s[7] == '-'
    ensures forall i :: 0 <= i < 10 && i != 4 && i != 7 ==> IsDigit(s[i])
  {
    FullDate(d)
  }

  /** Parsing a formatted date gives the date back. */
  lemma ParseFormatRoundTrip(d: Date)
    requires ValidDate(d)
    ensures ParseDateString(FormatDateForApi(d)) == Ok(d)
  {
    StrptimeFullDate(d);
  }

  /** The documented example: 15 January 2024 is formatted as "2024-01-15" and read back. */
  lemma DocumentedExample()
    ensures FormatDateForApi(Date(2024, 1, 15)) == "2024-01-15"
    ensures ParseDateString("2024-01-15") == Ok(Date(2024, 1, 15))
  {
    assert Pad4(2024) == "2024" && Pad2(1) == "01" && Pad2(15) == "15";
    assert FullDate(Date(2024, 1, 15)) == "2024" + "-" + "01" + "-" + "15";
    ParseFormatRoundTrip(Date(2024, 1, 15));
  }

  /** The documented failure: "invalid" raises. */
  lemma InvalidRaises()
    ensures ParseDateString("invalid").Failed?
  {
    assert "invalid"[4] != '-';
  }
}
