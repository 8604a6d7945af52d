/** `formatEmpId`: the short, upper-case form of an employee code shown in the UI. */
module StringUtils {
  import opened Base
  import opened Text

  /**
   * A missing or empty code reads "N/A"; otherwise the part before the first
   * hyphen, upper-cased.
   */
  function FormatEmpId(uuid: Option<string>): (r: string)
    ensures uuid == None || uuid == Some("") ==> r == "N/A"
    ensures uuid.Some? && uuid.value != "" ==>
      |r| <= |uuid.value| && '-' !in r &&
      (forall i :: 0 <= i < |r| ==> r[i] == UpperChar(uuid.value[i])) &&
      (|r| < |uuid.value| ==> uuid.value[|r|] == '-')
  {
    match uuid
    case None => "N/A"
    case Some(s) =>
      if s == "" then "N/A"
      else
        var first := Split(s, '-')[0];
        assert first == FirstSegment(s, '-');
        forall c | c in ToUpper(first) ensures c != '-' {
          var i :| 0 <= i < |first| && ToUpper(first)[i] == c;
          UpperCharKeeps(first[i], '-');
        }
        ToUpper(first)
  }

  /** A code without hyphens comes back whole, upper-cased. */
  lemma FormatWithoutHyphen(s: string)
    requires s != "" && '-' !in s
    ensures FormatEmpId(Some(s)) == ToUpper(s)
  {
  }

  /** A UUID-shaped code (eight hyphen-free characters, then a hyphen) shows as its first eight characters, upper-cased. */
  lemma FormatUuid(s: string)
    requires |s| > 8 && s[8] == '-' && '-' !in s[..8]
    ensures FormatEmpId(Some(s)) == ToUpper(s[..8])
  {
  }
}
