/**
 * PrivacyVisibilityBottomSheet: a sheet with three chips that shows the current
 * visibility (taken from its arguments) and reports the chosen one on "Apply".
 */
module PrivacyVisibility {
  import opened Wrappers
  import opened Text

  const Everyone: string := "everyone"
  const Matches: string := "matches"
  const Nobody: string := "nobody"

  const ArgTitle: string := "arg_title"
  const ArgDesc: string := "arg_desc"
  const ArgCurrent: string := "arg_current"

  predicate IsVisibility(v: string)
  {
    v == Everyone || v == Matches || v == Nobody
  }

  /** The three values are lowercase Latin words without blanks. */
  lemma VisibilityWords()
    ensures IsLowerAscii(Everyone) && IsLowerAscii(Matches) && IsLowerAscii(Nobody)
    ensures IsTrimmed(Everyone) && IsTrimmed(Matches) && IsTrimmed(Nobody)
    ensures |Everyone| == 8 && |Matches| == 7 && |Nobody| == 6
  {
  }

  /** So lowercasing and trimming leave each of them as it is. */
  lemma VisibilitiesAreNormal()
    ensures ToLower(Everyone) == Everyone && ToLower(Matches) == Matches && ToLower(Nobody) == Nobody
    ensures Trim(Everyone) == Everyone && Trim(Matches) == Matches && Trim(Nobody) == Nobody
    ensures Everyone != Matches && Everyone != Nobody && Matches != Nobody
  {
    VisibilityWords();
    LowerAsciiFixed(Everyone);
    LowerAsciiFixed(Matches);
    LowerAsciiFixed(Nobody);
    TrimmedIffFixed(Everyone);
    TrimmedIffFixed(Matches);
    TrimmedIffFixed(Nobody);
  }

  /**
   * `normalizeVisibility`: null is "everyone"; otherwise the trimmed, lowercased value
   * is kept when it is "matches" or "nobody", and anything else becomes "everyone".
   */
  function NormalizeVisibility(value: Option<string>): (r: string)
    ensures IsVisibility(r)
    ensures value.None? ==> r == Everyone
    ensures value.Some? ==> (r == Matches <==> Trim(ToLower(value.value)) == Matches)
    ensures value.Some? ==> (r == Nobody <==> Trim(ToLower(value.value)) == Nobody)
  {
    if value.None? then Everyone
    else
      var v := Trim(ToLower(value.value));
      if v == Matches then Matches
      else if v == Nobody then Nobody
      else Everyone
  }

  /** Each visibility value is its own normal form. */
  lemma VisibilityIsNormalForm(v: string)
    requires IsVisibility(v)
    ensures NormalizeVisibility(Some(v)) == v
  {
    VisibilitiesAreNormal();
  }

  /** Normalising twice changes nothing. */
  lemma NormalizeIdempotent(value: Option<string>)
    ensures NormalizeVisibility(Some(NormalizeVisibility(value))) == NormalizeVisibility(value)
  {
    VisibilityIsNormalForm(NormalizeVisibility(value));
  }

  /**
   * `argString`: the fallback when there are no arguments or the key holds no value or
   * only blanks; otherwise the value as stored, untrimmed. A missing key and a null value
   * are the same here.
   */
  function ArgString(args: Option<map<string, string>>, key: string, fallback: string): (r: string)
    ensures args.None? ==> r == fallback
    ensures args.Some? && key !in args.value ==> r == fallback
    ensures args.Some? && key in args.value && IsBlank(args.value[key]) ==> r == fallback
    ensures args.Some? && key in args.value && !IsBlank(args.value[key]) ==> r == args.value[key]
  {
    if args.None? then fallback
    else if key !in args.value || IsBlank(args.value[key]) then fallback
    else args.value[key]
  }

  /** The checked chip; `NoChip` is the group's "nothing checked" id. */
  datatype CheckedChip = EveryoneChip | MatchesChip | NobodyChip | NoChip

  /** `getSelectedVisibility`: the matches and nobody chips map to their values, anything else to "everyone". */
  function SelectedVisibility(chip: CheckedChip): (r: string)
    ensures IsVisibility(r)
    ensures r == Matches <==> chip == MatchesChip
    ensures r == Nobody <==> chip == NobodyChip
  {
    match chip
    case MatchesChip => Matches
    case NobodyChip => Nobody
    case _ => Everyone
  }

  /** The current value read from the arguments, normalised; "everyone" when absent. */
  function CurrentVisibility(args: Option<map<string, string>>): string
  {
    NormalizeVisibility(Some(ArgString(args, ArgCurrent, Everyone)))
  }

  /** The chip checked when the sheet opens, compared ignoring case as the sheet does. */
  function InitialChip(args: Option<map<string, string>>): (chip: CheckedChip)
    ensures chip != NoChip
  {
    var current := CurrentVisibility(args);
    if EqualsIgnoreCase(Matches, current) then MatchesChip
    else if EqualsIgnoreCase(Nobody, current) then NobodyChip
    else EveryoneChip
  }

  /** Among the three values, comparing ignoring case is plain equality. */
  lemma EqualsIgnoreCaseOnVisibilities(a: string, b: string)
    requires IsVisibility(a) && IsVisibility(b)
    ensures EqualsIgnoreCase(a, b) <==> a == b
  {
    VisibilitiesAreNormal();
    assert ToLower(a) == a && ToLower(b) == b;
  }

  /** The chip that shows a given visibility value. */
  lemma InitialChipShows(args: Option<map<string, string>>)
    ensures var current := CurrentVisibility(args);
      InitialChip(args) == (if current == Matches then MatchesChip else if current == Nobody then NobodyChip else EveryoneChip)
  {
    var current := CurrentVisibility(args);
    EqualsIgnoreCaseOnVisibilities(Matches, current);
    EqualsIgnoreCaseOnVisibilities(Nobody, current);
  }

  /**
   * Opening the sheet and pressing "Apply" straight away reports the current value,
   * normalised: the chips round-trip every visibility.
   */
  lemma ApplyUntouchedReportsCurrent(args: Option<map<string, string>>)
    ensures SelectedVisibility(InitialChip(args)) == CurrentVisibility(args)
  {
    InitialChipShows(args);
  }

  /** With no arguments the sheet opens on "everyone". */
  lemma NoArgumentsMeansEveryone()
    ensures CurrentVisibility(None) == Everyone
    ensures InitialChip(None) == EveryoneChip
  {
    assert ArgString(None, ArgCurrent, Everyone) == Everyone;
    VisibilityIsNormalForm(Everyone);
    InitialChipShows(None);
  }
}
