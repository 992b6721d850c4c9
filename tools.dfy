/** The people search of `tool_search_people` (its record filter and its
    pagination loop, with the pages Airtable returns as input) and the tool
    dispatch of `execute_tool`. */
module Tools {
  import opened Wrappers
  import opened JsonValue
  import opened Text
  import opened Numeral

  /** `str(value)` as an f-string shows a field value; lists and objects are
      not shown (see README). */
  function Display(j: Json): string
  {
    match j
    case Str(s) => s
    case Number(n) => Decimal(n)
    case Bool(b) => if b then "True" else "False"
    case Null => "None"
    case _ => ""
  }

  /** `fields.get('Name', fields.get('Full name', ''))`: the full name is only
      used when there is no "Name" field at all. */
  function NameOf(fields: map<string, Json>): Json
  {
    GetOr(fields, "Name", GetOr(fields, "Full name", Str("")))
  }

  /** `f"{name} {email}".lower()` */
  function Searchable(fields: map<string, Json>): string
  {
    Lower(Display(NameOf(fields)) + " " + Display(GetOr(fields, "Email Address", Str(""))))
  }

  /** Whether a People record is listed: it has a name, and when a search term
      is given, the lowered name and e-mail contain the lowered term. */
  predicate Keeps(fields: map<string, Json>, searchTerm: Option<string>)
  {
    Truthy(NameOf(fields)) &&
    (searchTerm.None? || searchTerm.value == [] || Contains(Searchable(fields), Lower(searchTerm.value)))
  }

  datatype Person = Person(name: Json, email: Json, phone: Json, clientCode: Json)

  function PersonOf(fields: map<string, Json>): Person
  {
    Person(NameOf(fields), GetOr(fields, "Email Address", Str("")),
           GetOr(fields, "Phone Number", Str("")), GetOr(fields, "Client Link", Str("")))
  }

  /** The people listed from `records`, in order. */
  function Select(records: seq<map<string, Json>>, searchTerm: Option<string>): (people: seq<Person>)
    ensures |people| <= |records|
  {
    if records == [] then []
    else
      var last := records[|records| - 1];
      Select(records[..|records| - 1], searchTerm) + (if Keeps(last, searchTerm) then [PersonOf(last)] else [])
  }

  lemma SelectSnoc(records: seq<map<string, Json>>, r: map<string, Json>, searchTerm: Option<string>)
    ensures Select(records + [r], searchTerm) ==
            Select(records, searchTerm) + (if Keeps(r, searchTerm) then [PersonOf(r)] else [])
  {
    assert (records + [r])[..|records|] == records;
  }

  /** Every listed person comes from a record the filter keeps. */
  lemma {:induction false} SelectSound(records: seq<map<string, Json>>, searchTerm: Option<string>, k: int)
    requires 0 <= k < |Select(records, searchTerm)|
    ensures exists j :: 0 <= j < |records| && Keeps(records[j], searchTerm) &&
                        Select(records, searchTerm)[k] == PersonOf(records[j])
  {
    var init := records[..|records| - 1];
    var last := records[|records| - 1];
    if k < |Select(init, searchTerm)| {
      SelectSound(init, searchTerm, k);
      var j :| 0 <= j < |init| && Keeps(init[j], searchTerm) && Select(init, searchTerm)[k] == PersonOf(init[j]);
      assert records[j] == init[j];
    } else {
      assert Keeps(last, searchTerm) && Select(records, searchTerm)[k] == PersonOf(last);
    }
  }

  /** Every record the filter keeps is listed. */
  lemma {:induction false} SelectComplete(records: seq<map<string, Json>>, searchTerm: Option<string>, j: int)
    requires 0 <= j < |records| && Keeps(records[j], searchTerm)
    ensures PersonOf(records[j]) in Select(records, searchTerm)
  {
    var init := records[..|records| - 1];
    if j < |records| - 1 {
      assert records[j] == init[j];
      SelectComplete(init, searchTerm, j);
    }
  }

  /** Lower-casing is idempotent, so the search does not depend on the case of
      the term. */
  lemma LowerIdempotent(s: string)
    ensures Lower(Lower(s)) == Lower(s)
  {
    assert forall i :: 0 <= i < |s| ==> LowerChar(LowerChar(s[i])) == LowerChar(s[i]);
  }

  lemma CaseInsensitive(fields: map<string, Json>, term: string)
    ensures Keeps(fields, Some(term)) == Keeps(fields, Some(Lower(term)))
  {
    LowerIdempotent(term);
  }

  /** One page of the People listing: its records and the `offset` of the next. */
  datatype Page = Page(records: seq<map<string, Json>>, offset: Json)

  /** The records of a run of pages, in order. */
  function Flatten(pages: seq<Page>): (records: seq<map<string, Json>>)
    ensures pages == [] ==> records == []
  {
    if pages == [] then [] else Flatten(pages[..|pages| - 1]) + pages[|pages| - 1].records
  }

  lemma FlattenSnoc(pages: seq<Page>, p: nat)
    requires p < |pages|
    ensures Flatten(pages[..p + 1]) == Flatten(pages[..p]) + pages[p].records
  {
    assert pages[..p + 1][..p] == pages[..p];
  }

  lemma {:induction false} SelectAppend(front: seq<map<string, Json>>, back: seq<map<string, Json>>, searchTerm: Option<string>)
    ensures Select(front + back, searchTerm) == Select(front, searchTerm) + Select(back, searchTerm)
    decreases |back|
  {
    if back == [] {
      assert front + back == front;
    } else {
      var init := back[..|back| - 1];
      var r := back[|back| - 1];
      assert back == init + [r];
      assert front + back == (front + init) + [r];
      SelectSnoc(front + init, r, searchTerm);
      SelectAppend(front, init, searchTerm);
      SelectSnoc(init, r, searchTerm);
    }
  }

  /** The loop over one page's records. */
  method ScanPage(records: seq<map<string, Json>>, searchTerm: Option<string>) returns (kept: seq<Person>)
    ensures kept == Select(records, searchTerm)
  {
    kept := [];
    var i := 0;
    while i < |records|
      invariant i <= |records|
      invariant kept == Select(records[..i], searchTerm)
    {
      SelectSnoc(records[..i], records[i], searchTerm);
      assert records[..i + 1] == records[..i] + [records[i]];
      if Keeps(records[i], searchTerm) {
        kept := kept + [PersonOf(records[i])];
      }
      i := i + 1;
    }
    assert records[..i] == records;
  }

  /** `tool_search_people` over the pages Airtable returns: pages are read
      until one has no `offset`, and every kept record of the pages read is
      listed. The last page Airtable returns has no `offset`. */
  method SearchPeople(pages: seq<Page>, searchTerm: Option<string>) returns (people: seq<Person>, fetched: nat)
    requires |pages| > 0 && !Truthy(pages[|pages| - 1].offset)
    ensures 1 <= fetched <= |pages| && !Truthy(pages[fetched - 1].offset)
    ensures forall j :: 0 <= j < fetched - 1 ==> Truthy(pages[j].offset)
    ensures people == Select(Flatten(pages[..fetched]), searchTerm)
  {
    people := [];
    fetched := 0;
    var done := false;
    while !done
      invariant fetched <= |pages|
      invariant !done ==> fetched < |pages|
      invariant done ==> 1 <= fetched && !Truthy(pages[fetched - 1].offset)
      invariant forall j :: 0 <= j < fetched && (!done || j < fetched - 1) ==> Truthy(pages[j].offset)
      invariant people == Select(Flatten(pages[..fetched]), searchTerm)
      decreases |pages| - fetched, !done
    {
      var page := pages[fetched];
      var kept := ScanPage(page.records, searchTerm);
      FlattenSnoc(pages, fetched);
      SelectAppend(Flatten(pages[..fetched]), page.records, searchTerm);
      people := people + kept;
      fetched := fetched + 1;
      if !Truthy(page.offset) {
        done := true;
      }
    }
  }

  /** The four tools Dot may call. */
  datatype ToolName = SearchPeopleTool | ClientDetailTool | SpendSummaryTool | ReserveJobNumberTool

  function ToolText(t: ToolName): string
  {
    match t
    case SearchPeopleTool => "search_people"
    case ClientDetailTool => "get_client_detail"
    case SpendSummaryTool => "get_spend_summary"
    case ReserveJobNumberTool => "reserve_job_number"
  }

  function ToolByName(name: Json): Option<ToolName>
  {
    if name == Str("search_people") then Some(SearchPeopleTool)
    else if name == Str("get_client_detail") then Some(ClientDetailTool)
    else if name == Str("get_spend_summary") then Some(SpendSummaryTool)
    else if name == Str("reserve_job_number") then Some(ReserveJobNumberTool)
    else None
  }

  /** Each tool is found by its name, and only by it. */
  lemma ToolNameRoundTrip(t: ToolName, name: Json)
    ensures ToolByName(Str(ToolText(t))) == Some(t)
    ensures ToolByName(name) == Some(t) <==> name == Str(ToolText(t))
  {
  }

  /** The call `execute_tool` makes, with the arguments it reads from the input. */
  datatype ToolCall =
    | SearchPeopleCall(clientCode: Json, searchTerm: Json)
    | ClientDetailCall(clientCode: Json)
    | SpendSummaryCall(clientCode: Json, period: Json)
    | ReserveJobNumberCall(clientCode: Json)
    | UnknownTool(error: string)

  /** `tool_input.get(key)`: a missing argument is `None`. */
  function Arg(input: map<string, Json>, key: string): Json
  {
    GetOr(input, key, Null)
  }

  /** `execute_tool(tool_name, tool_input)` */
  function Dispatch(toolName: Json, input: map<string, Json>): (call: ToolCall)
    ensures call.UnknownTool? <==> ToolByName(toolName).None?
    ensures call.UnknownTool? ==> call.error == "Unknown tool: " + Display(toolName)
    ensures !call.UnknownTool? ==> call.clientCode == Arg(input, "client_code")
    ensures call.SpendSummaryCall? ==> call.period == GetOr(input, "period", Str("this_month"))
    ensures call.SearchPeopleCall? ==> call.searchTerm == Arg(input, "search_term")
  {
    match ToolByName(toolName)
    case Some(SearchPeopleTool) => SearchPeopleCall(Arg(input, "client_code"), Arg(input, "search_term"))
    case Some(ClientDetailTool) => ClientDetailCall(Arg(input, "client_code"))
    case Some(SpendSummaryTool) => SpendSummaryCall(Arg(input, "client_code"), GetOr(input, "period", Str("this_month")))
    case Some(ReserveJobNumberTool) => ReserveJobNumberCall(Arg(input, "client_code"))
    case None => UnknownTool("Unknown tool: " + Display(toolName))
  }

  /** Each tool name reaches its own tool. */
  lemma DispatchByName(t: ToolName, input: map<string, Json>)
    ensures var call := Dispatch(Str(ToolText(t)), input);
            match t
            case SearchPeopleTool => call.SearchPeopleCall?
            case ClientDetailTool => call.ClientDetailCall?
            case SpendSummaryTool => call.SpendSummaryCall?
            case ReserveJobNumberTool => call.ReserveJobNumberCall?
  {
    ToolNameRoundTrip(t, Str(ToolText(t)));
  }
}
