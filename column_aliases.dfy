/**
 * Finding the date column and the case column of an uploaded flu table among
 * fixed lists of accepted spellings, first match in list order.
 */
module ColumnAliases {
  import opened Wrappers

  const DateAliases: seq<string> := ["Date", "date", "DATE"]
  const CaseAliases: seq<string> := ["Flu_Cases", "FluCases", "Cases", "cases", "Dengue_Cases", "dengue_cases", "Count"]

  /** `name` is the earliest alias, in declared order, that is one of `columns`. */
  ghost predicate IsFirstPresent(aliases: seq<string>, columns: seq<string>, name: string)
  {
    exists i :: 0 <= i < |aliases| && aliases[i] == name && name in columns &&
      forall j :: 0 <= j < i ==> aliases[j] !in columns
  }

  /** The alias a scan of `aliases` in order stops at, if any. */
  function FirstPresent(aliases: seq<string>, columns: seq<string>): (r: Option<string>)
    ensures r.None? <==> forall i :: 0 <= i < |aliases| ==> aliases[i] !in columns
    ensures r.Some? ==> IsFirstPresent(aliases, columns, r.value)
  {
    if |aliases| == 0 then None
    else if aliases[0] in columns then Some(aliases[0])
    else
      var r := FirstPresent(aliases[1..], columns);
      assert r.Some? ==> IsFirstPresent(aliases, columns, r.value) by {
        if r.Some? {
          var i :| 0 <= i < |aliases[1..]| && aliases[1..][i] == r.value && r.value in columns &&
            forall j :: 0 <= j < i ==> aliases[1..][j] !in columns;
          assert aliases[i + 1] == r.value;
          assert forall j :: 0 <= j < i + 1 ==> aliases[j] !in columns by {
            forall j | 0 <= j < i + 1 ensures aliases[j] !in columns {
              if j > 0 { assert aliases[j] == aliases[1..][j - 1]; }
            }
          }
        }
      }
      assert r.None? ==> forall i :: 0 <= i < |aliases| ==> aliases[i] !in columns by {
        if r.None? {
          forall i | 0 <= i < |aliases| ensures aliases[i] !in columns {
            if i > 0 { assert aliases[i] == aliases[1..][i - 1]; }
          }
        }
      }
      r
  }

  /** The first present alias is determined by the aliases and the columns alone. */
  lemma FirstPresentUnique(aliases: seq<string>, columns: seq<string>, a: string, b: string)
    requires IsFirstPresent(aliases, columns, a) && IsFirstPresent(aliases, columns, b)
    ensures a == b
  {
  }

  /** The `for c in aliases: if c in columns: found = c; break` scan. */
  method DetectColumn(aliases: seq<string>, columns: seq<string>) returns (found: Option<string>)
    ensures found == FirstPresent(aliases, columns)
  {
    found := None;
    for i := 0 to |aliases|
      invariant found.None?
      invariant forall j :: 0 <= j < i ==> aliases[j] !in columns
    {
      if aliases[i] in columns {
        found := Some(aliases[i]);
        break;
      }
    }
    if found.Some? {
      assert IsFirstPresent(aliases, columns, found.value);
      FirstPresentUnique(aliases, columns, found.value, FirstPresent(aliases, columns).value);
    }
  }

  /** No spelling is accepted for both roles, so the two detected columns differ. */
  lemma AliasListsDisjoint()
    ensures forall i, j :: 0 <= i < |DateAliases| && 0 <= j < |CaseAliases| ==> DateAliases[i] != CaseAliases[j]
  {
  }

  /** The alias order decides, not the column order: `date` wins over an earlier `DATE`. */
  lemma DetectionExample()
    ensures FirstPresent(DateAliases, ["DATE", "Count", "date"]) == Some("date")
  {
  }
}
