/** The cancellation-reason normaliser of the webhook controller
    (`mapCancellationReason`): free text from the billing provider is mapped to
    one code of a fixed taxonomy by an ordered first-match substring search. */
module Reasons {
  import opened Text

  /** One row of the reason table: the keyword searched for and the code it yields. */
  datatype Rule = Rule(keyword: string, code: string)

  /** The reason table, in the order in which it is searched. */
  const Table: seq<Rule> := [
    Rule("time", "time"),
    Rule("engage", "engagement"),
    Rule("financ", "cost"),
    Rule("relocat", "relocation"),
    Rule("equip", "equipment"),
    Rule("manag", "management"),
    Rule("commu", "community"),
    Rule("orient", "orientation"),
    Rule("term", "predefined"),
    Rule("payment", "3rdparty"),
    Rule("discip", "removed"),
    Rule("other", "other")
  ]

  /** The code returned when the reason is empty or matches no keyword. */
  const Unknown: string := "unknown"

  /** The text actually searched: trimmed, then lower-cased. */
  function Normalize(reason: string): string {
    Lower(Trim(reason))
  }

  /** The code of the first rule, from index `i` on, whose keyword occurs in `text`. */
  function MatchFrom(text: string, i: nat): string
    requires i <= |Table|
    decreases |Table| - i
  {
    if i == |Table| then Unknown
    else if Contains(text, Table[i].keyword) then Table[i].code
    else MatchFrom(text, i + 1)
  }

  /** The code `mapCancellationReason` returns for a reason. */
  function ReasonCode(reason: string): string {
    if PhpEmpty(reason) then Unknown else MatchFrom(Normalize(reason), 0)
  }

  /** `mapCancellationReason` as written: an early return for an empty reason,
      then a scan of the table that returns at the first keyword found. */
  method MapCancellationReason(reason: string) returns (code: string)
    ensures code == ReasonCode(reason)
  {
    if PhpEmpty(reason) {
      return Unknown;
    }
    var normalized := Lower(Trim(reason));
    for i := 0 to |Table|
      invariant MatchFrom(normalized, i) == MatchFrom(normalized, 0)
    {
      if Contains(normalized, Table[i].keyword) {
        return Table[i].code;
      }
    }
    return Unknown;
  }

  /** No two rules share a code, and no rule yields `unknown`. */
  lemma CodesDistinct()
    ensures forall i, j :: 0 <= i < j < |Table| ==> Table[i].code != Table[j].code
    ensures forall i :: 0 <= i < |Table| ==> Table[i].code != Unknown
    ensures forall i :: 0 <= i < |Table| ==> |Table[i].keyword| > 0
  {
  }

  lemma {:induction false} MatchFromRange(text: string, i: nat)
    requires i <= |Table|
    ensures MatchFrom(text, i) == Unknown
            || exists k :: i <= k < |Table| && MatchFrom(text, i) == Table[k].code
    decreases |Table| - i
  {
    if i < |Table| && !Contains(text, Table[i].keyword) {
      MatchFromRange(text, i + 1);
    }
  }

  lemma {:induction false} MatchFromIsFirst(text: string, i: nat, k: nat)
    requires i <= k < |Table|
    ensures MatchFrom(text, i) == Table[k].code
            <==> Contains(text, Table[k].keyword)
                 && forall j :: i <= j < k ==> !Contains(text, Table[j].keyword)
    decreases k - i
  {
    CodesDistinct();
    if i < k {
      MatchFromIsFirst(text, i + 1, k);
    } else {
      MatchFromRange(text, k + 1);
    }
  }

  lemma {:induction false} MatchFromNone(text: string, i: nat)
    requires i <= |Table|
    ensures MatchFrom(text, i) == Unknown
            <==> forall j :: i <= j < |Table| ==> !Contains(text, Table[j].keyword)
    decreases |Table| - i
  {
    CodesDistinct();
    if i < |Table| {
      MatchFromNone(text, i + 1);
    }
  }

  /** The result is always one of the twelve table codes or `unknown`. */
  lemma ReasonCodeInRange(reason: string)
    ensures ReasonCode(reason) == Unknown
            || exists k :: 0 <= k < |Table| && ReasonCode(reason) == Table[k].code
  {
    if !PhpEmpty(reason) {
      MatchFromRange(Normalize(reason), 0);
    }
  }

  /** Rule `k` decides iff the reason is non-empty, its keyword occurs in the
      normalised text, and no keyword earlier in the table does: table order,
      not position in the text, breaks ties. */
  lemma ReasonCodeIsFirstRule(reason: string, k: nat)
    requires k < |Table|
    ensures ReasonCode(reason) == Table[k].code
            <==> !PhpEmpty(reason)
                 && Contains(Normalize(reason), Table[k].keyword)
                 && forall j :: 0 <= j < k ==> !Contains(Normalize(reason), Table[j].keyword)
  {
    CodesDistinct();
    MatchFromIsFirst(Normalize(reason), 0, k);
  }

  /** `unknown` comes out exactly for an empty reason or one matching no keyword. */
  lemma ReasonCodeUnknown(reason: string)
    ensures ReasonCode(reason) == Unknown
            <==> PhpEmpty(reason)
                 || forall j :: 0 <= j < |Table| ==> !Contains(Normalize(reason), Table[j].keyword)
  {
    MatchFromNone(Normalize(reason), 0);
  }

  /** "time" heads the table, so any reason mentioning it maps to `time`, even
      when "orient" (or any other keyword) appears earlier in the text. */
  lemma TimeWins(reason: string)
    requires Contains(Normalize(reason), "time")
    ensures ReasonCode(reason) == "time"
  {
    ReasonCodeIsFirstRule(reason, 0);
  }

  /** A reason made only of whitespace normalises to the empty text and maps to `unknown`. */
  lemma BlankReasonIsUnknown(reason: string)
    requires forall k :: 0 <= k < |reason| ==> IsTrimChar(reason[k])
    ensures ReasonCode(reason) == Unknown
  {
    TrimCuts(reason);
    assert Normalize(reason) == [];
    forall j | 0 <= j < |Table|
      ensures !Contains(Normalize(reason), Table[j].keyword)
    {
      CodesDistinct();
      AbsentCharExcludes(Normalize(reason), Table[j].keyword, 0);
    }
    ReasonCodeUnknown(reason);
  }

  lemma NormalizeDefaultReason()
    ensures Normalize("Unknown") == "unknown"
  {
    assert TrimStart("Unknown") == "Unknown";
    assert TrimEnd("Unknown") == "Unknown";
  }

  /** The webhook's default reason "Unknown" maps to `unknown`: every keyword
      holds a character ('i', 'e', 'a' or 'c') that "unknown" lacks. */
  lemma DefaultReasonIsUnknown()
    ensures ReasonCode("Unknown") == Unknown
  {
    var text := Normalize("Unknown");
    NormalizeDefaultReason();
    forall j | 0 <= j < |Table|
      ensures !Contains(text, Table[j].keyword)
    {
      var p := [1, 0, 1, 1, 0, 1, 0, 3, 1, 1, 1, 3][j];
      assert Table[j].keyword[p] in "iaec";
      AbsentCharExcludes(text, Table[j].keyword, p);
    }
    ReasonCodeUnknown("Unknown");
  }

  lemma NormalizeFinancialConsiderations()
    ensures Normalize("Financial Considerations") == "financial considerations"
  {
    TrimUntouched("Financial Considerations");
    LowerFinancialConsiderations("Financial Considerations");
  }

  /** "Financial Considerations" has no blank at either end, so trimming keeps it. */
  lemma TrimUntouched(s: string)
    requires s == "Financial Considerations"
    ensures Trim(s) == s
  {
    assert TrimStart(s) == s;
    assert TrimEnd(s) == s;
  }

  lemma LowerFinancialConsiderations(s: string)
    requires s == "Financial Considerations"
    ensures Lower(s) == "financial considerations"
  {
  }

  /** In "financial considerations" neither "time" nor "engage" occurs ('m'
      and 'g' are absent), while "financ" starts the text. */
  lemma FinancialKeywords(text: string)
    requires text == "financial considerations"
    ensures !Contains(text, "time") && !Contains(text, "engage") && Contains(text, "financ")
  {
    AbsentCharExcludes(text, "time", 2);
    AbsentCharExcludes(text, "engage", 2);
    assert OccursAt(text, "financ", 0);
  }

  /** "Financial Considerations" maps to `cost`. */
  lemma FinancialConsiderationsIsCost()
    ensures ReasonCode("Financial Considerations") == "cost"
  {
    var reason := "Financial Considerations";
    NormalizeFinancialConsiderations();
    FinancialKeywords(Normalize(reason));
    assert Table[0].keyword == "time" && Table[1].keyword == "engage";
    assert Table[2] == Rule("financ", "cost");
    ReasonCodeIsFirstRule(reason, 2);
  }
}
