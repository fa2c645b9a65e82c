/** The settings form's two server actions (src/app/founder/settings/actions.ts):
    each reads its fields with `Number(x) || default` or `parseListInput`
    and upserts the demo tenant's configuration row. */
module SettingsActions {
  import opened Wrappers
  import opened Text
  import opened Config
  import opened Records
  import opened Store
  import opened Forms

  /** The tenant every server action writes for. */
  const DemoTenantId: string := "demo-tenant"

  /** `split(/\r?\n|,/)`: a comma, a line feed, or a carriage return
      directly followed by a line feed ends an item. */
  function SplitItems(s: string): (parts: seq<string>)
    ensures |parts| >= 1
    ensures forall k :: 0 <= k < |parts| ==> ',' !in parts[k] && '\n' !in parts[k]
  {
    if s == [] then [""]
    else if s[0] == ',' || s[0] == '\n' then [""] + SplitItems(s[1..])
    else if s[0] == '\r' && |s| >= 2 && s[1] == '\n' then [""] + SplitItems(s[2..])
    else
      var rest := SplitItems(s[1..]);
      [[s[0]] + rest[0]] + rest[1..]
  }

  /** An item as the settings keep it: not empty, no white space at either
      end, and no separator inside. */
  predicate CleanItem(x: string) {
    x != [] && !IsSpace(x[0]) && !IsSpace(x[|x| - 1]) && ',' !in x && '\n' !in x
  }

  /** `.filter(Boolean)`: drop the empty strings. */
  function NonEmpty(items: seq<string>): (r: seq<string>)
    ensures |r| <= |items|
    ensures forall k :: 0 <= k < |r| ==> r[k] != [] && r[k] in items
  {
    if items == [] then []
    else (if items[0] != [] then [items[0]] else []) + NonEmpty(items[1..])
  }

  /** Trimming removes characters and adds none. */
  lemma TrimKeepsOut(s: string, c: char)
    requires c !in s
    ensures c !in Trim(s)
  {
  }

  /** The items of a list field: split, trimmed, empty ones dropped. */
  function CleanList(s: string): (r: seq<string>)
    ensures forall k :: 0 <= k < |r| ==> CleanItem(r[k])
  {
    var parts := SplitItems(s);
    var trimmed := seq(|parts|, i requires 0 <= i < |parts| => Trim(parts[i]));
    forall i | 0 <= i < |parts| ensures ',' !in trimmed[i] && '\n' !in trimmed[i] {
      TrimKeepsOut(parts[i], ',');
      TrimKeepsOut(parts[i], '\n');
    }
    NonEmpty(trimmed)
  }

  /** `parseListInput`: the fallback for a missing entry or a file, and
      for text holding no item; otherwise the clean items of the text. */
  function ParseListInput(v: Option<Entry>, fallback: seq<string>): (r: seq<string>)
    ensures !(v.Some? && v.value.TextEntry?) ==> r == fallback
    ensures v.Some? && v.value.TextEntry? ==>
      r == (if CleanList(v.value.s) == [] then fallback else CleanList(v.value.s))
    ensures r == fallback || (r != [] && forall k :: 0 <= k < |r| ==> CleanItem(r[k]))
  {
    match v
    case Some(TextEntry(s)) => if CleanList(s) == [] then fallback else CleanList(s)
    case _ => fallback
  }

  /** The items joined by a separator, as the settings page shows them. */
  function Join(items: seq<string>, sep: string): string
    requires |items| >= 1
  {
    if |items| == 1 then items[0] else items[0] + sep + Join(items[1..], sep)
  }

  predicate Separator(sep: string) {
    sep == "," || sep == "\n" || sep == "\r\n"
  }

  /** An item without separators, not ending in a carriage return, is the
      start of the first item of whatever follows it. */
  lemma {:induction false} SplitPrefix(a: string, t: string)
    requires ',' !in a && '\n' !in a && (a == [] || a[|a| - 1] != '\r')
    ensures SplitItems(a + t) == [a + SplitItems(t)[0]] + SplitItems(t)[1..]
  {
    if a != [] {
      var a' := a[1..];
      assert a + t == [a[0]] + (a' + t);
      assert a' != [] ==> a'[|a'| - 1] == a[|a| - 1];
      SplitPrefix(a', t);
      assert a[0] == '\r' ==> a' != [] && (a' + t)[0] == a'[0] && a'[0] != '\n';
      assert (a + t)[1..] == a' + t;
      var rest := SplitItems(a' + t);
      assert (a + t)[0] == a[0] && (|a + t| >= 2 ==> (a + t)[1] == (a' + t)[0]);
      assert rest[0] == a' + SplitItems(t)[0] && rest[1..] == SplitItems(t)[1..];
      assert SplitItems(a + t) == [[a[0]] + rest[0]] + rest[1..];
      assert [a[0]] + (a' + SplitItems(t)[0]) == a + SplitItems(t)[0];
    } else {
      assert a + t == t && a + SplitItems(t)[0] == SplitItems(t)[0];
    }
  }

  lemma SplitAfterSeparator(sep: string, t: string)
    requires Separator(sep)
    ensures SplitItems(sep + t) == [""] + SplitItems(t)
  {
    if sep == "\r\n" { assert (sep + t)[2..] == t; } else { assert (sep + t)[1..] == t; }
  }

  /** Splitting undoes joining clean items. */
  lemma {:induction false} SplitJoin(items: seq<string>, sep: string)
    requires |items| >= 1 && Separator(sep)
    requires forall k :: 0 <= k < |items| ==> CleanItem(items[k])
    ensures SplitItems(Join(items, sep)) == items
    decreases |items|
  {
    var x := items[0];
    assert IsSpace('\r');
    if |items| == 1 {
      SplitPrefix(x, "");
      assert x + "" == x;
    } else {
      var t := sep + Join(items[1..], sep);
      SplitJoin(items[1..], sep);
      SplitAfterSeparator(sep, Join(items[1..], sep));
      assert Join(items, sep) == x + t;
      SplitPrefix(x, t);
      assert SplitItems(t)[0] == "" && SplitItems(t)[1..] == items[1..];
      assert x + "" == x;
      assert items == [x] + items[1..];
    }
  }

  lemma {:induction false} NonEmptyKeeps(items: seq<string>)
    requires forall k :: 0 <= k < |items| ==> items[k] != []
    ensures NonEmpty(items) == items
  {
    if items != [] { NonEmptyKeeps(items[1..]); }
  }

  /** A list saved from the settings page, joined by commas or by lines,
      reads back as the same list. */
  lemma ParseListRoundTrip(items: seq<string>, sep: string, fallback: seq<string>)
    requires |items| >= 1 && Separator(sep)
    requires forall k :: 0 <= k < |items| ==> CleanItem(items[k])
    ensures ParseListInput(Some(TextEntry(Join(items, sep))), fallback) == items
  {
    var parts := SplitItems(Join(items, sep));
    SplitJoin(items, sep);
    var trimmed := seq(|parts|, i requires 0 <= i < |parts| => Trim(parts[i]));
    forall i | 0 <= i < |parts| ensures trimmed[i] == items[i] { TrimOfTrimmed(items[i]); }
    assert trimmed == items;
    NonEmptyKeeps(items);
  }

  /** `alertRunwayMonths`: null for a missing or empty entry, otherwise
      `Number(x) || null`. */
  function AlertRunwayField(v: Option<Entry>): Option<real> {
    if v.None? || v == Some(TextEntry("")) then None else NumberOrNull(v)
  }

  /** The explicit empty-entry test changes nothing: the field is exactly
      `Number(x) || null`, so it is null when missing, blank, zero or not
      a number. */
  lemma AlertRunwayIsNumberOrNull(v: Option<Entry>)
    ensures AlertRunwayField(v) == NumberOrNull(v)
    ensures AlertRunwayField(v).None? <==> !Truthy(ToNumber(v))
  {
    if v == Some(TextEntry("")) {
      assert Trim("") == [];
    }
  }

  /** `summaryTone`: the entry's text, or the default when it is missing;
      a file cannot be stored in the text column and fails the upsert. */
  function ToneField(v: Option<Entry>): (r: Result<string>)
    ensures r.Err? <==> v == Some(FileEntry)
  {
    match v
    case None => Ok("concise")
    case Some(TextEntry(s)) => Ok(s)
    case Some(FileEntry) => Err("Invalid value for summaryTone")
  }

  /** The business-intent row the form describes. */
  function BusinessIntentFromForm(form: FormData): (r: Result<BusinessIntentRow>)
    ensures r.Err? <==> Get(form, "summaryTone") == Some(FileEntry)
    ensures r.Ok? ==> r.value.targetMrr != 0.0 && r.value.acceptableChurnRate != 0.0
                      && r.value.alertChurnRate != 0.0 && r.value.summaryMaxActions != 0.0
    ensures r.Ok? && r.value.alertRunwayMonths.Some? ==> r.value.alertRunwayMonths.value != 0.0
  {
    var d := DefaultBusinessIntent;
    match ToneField(Get(form, "summaryTone"))
    case Err(m) => Err(m)
    case Ok(tone) =>
      Ok(BusinessIntentRow(
        NumberOr(Get(form, "targetMrr"), d.targetMrr),
        NumberOr(Get(form, "acceptableChurnRate"), d.acceptableChurnRate),
        NumberOr(Get(form, "alertChurnRate"), d.alertChurnRate),
        AlertRunwayField(Get(form, "alertRunwayMonths")),
        tone,
        NumberOr(Get(form, "summaryMaxActions"), d.maxActions as real)))
  }

  /** The idea-intent row the form describes. */
  function IdeaIntentFromForm(form: FormData): (r: IdeaIntentRow)
    ensures r.arpuFloor != 0.0 && r.minScoreForExperiment != 0.0
    ensures r.excludedDomains != [] && r.founderStrengths != [] && r.agentFitKeywords != []
  {
    var d := DefaultIdeaFilters;
    IdeaIntentRow(
      NumberOr(Get(form, "arpuFloor"), d.arpuFloor),
      ParseListInput(Get(form, "excludedDomains"), d.excludedDomains),
      ParseListInput(Get(form, "founderStrengths"), d.founderStrengths),
      ParseListInput(Get(form, "agentFitKeywords"), d.agentFitKeywords),
      NumberOr(Get(form, "minScoreForExperiment"), d.minScoreForExperiment))
  }

  /** An empty submission stores the defaults, except that the runway
      alert is cleared rather than reset to its default of 6 months. */
  lemma EmptyFormsStoreDefaults()
    ensures BusinessIntentFromForm(map[]) == Ok(BusinessIntentRow(20000.0, 0.05, 0.08, None, "concise", 4.0))
    ensures DefaultBusinessIntent.alertRunwayMonths == Some(6.0)
    ensures IdeaIntentFromForm(map[]) == IdeaIntentRow(
      50.0, ["medical", "securities", "gambling"], ["gtm", "ops", "partnerships"],
      ["inbox", "email", "crm", "ticket", "document", "schedule", "summary"], 9.0)
  {
  }

  /** `updateBusinessIntentAction`: upsert the demo tenant's row. */
  method UpdateBusinessIntentAction(db: Db, form: FormData) returns (r: Result<BusinessIntentRow>)
    modifies db`businessIntentRows
    ensures r == BusinessIntentFromForm(form)
    ensures r.Ok? ==> db.businessIntentRows == old(db.businessIntentRows)[DemoTenantId := r.value]
    ensures r.Err? ==> db.businessIntentRows == old(db.businessIntentRows)
  {
    r := BusinessIntentFromForm(form);
    if r.Ok? {
      db.businessIntentRows := db.businessIntentRows[DemoTenantId := r.value];
    }
  }

  /** `updateIdeaIntentAction`: upsert the demo tenant's row. */
  method UpdateIdeaIntentAction(db: Db, form: FormData) returns (row: IdeaIntentRow)
    modifies db`ideaIntentRows
    ensures row == IdeaIntentFromForm(form)
    ensures db.ideaIntentRows == old(db.ideaIntentRows)[DemoTenantId := row]
  {
    row := IdeaIntentFromForm(form);
    db.ideaIntentRows := db.ideaIntentRows[DemoTenantId := row];
  }
}
