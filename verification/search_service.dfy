/** Choosing a Cortex Search service (20_Day20.py, 22_Day22.py): the list of
    discovered services is reordered so the default comes first, a
    manual-entry sentinel is appended to a non-empty list, and a service path
    is accepted only when it splits on '.' into exactly three parts. */
module SearchService {
  import opened Wrappers
  import opened Text

  /** The service created on day 19, the fallback default of both pages. */
  const DefaultService: string := "RAG_DB.RAG_SCHEMA.CUSTOMER_REVIEW_SEARCH"

  /** The dropdown entry that switches to a free-text path input. */
  const ManualEntry: string := "-- Enter manually --"

  const PathFormatError: string := "Service path must be in format: database.schema.service_name"

  /** One row of `SHOW CORTEX SEARCH SERVICES`. */
  datatype ServiceRow = ServiceRow(database: string, schema: string, name: string)

  function QualifiedName(row: ServiceRow): string
  {
    Join(".", [row.database, row.schema, row.name])
  }

  /** The listing as the pages build it: one `database.schema.name` per row,
      in row order, and no services at all when the listing query raised. */
  function ListServices(listing: Result<seq<ServiceRow>>): (paths: seq<string>)
    ensures listing.Err? ==> paths == []
    ensures listing.Ok? ==> |paths| == |listing.value|
    ensures listing.Ok? ==> forall i :: 0 <= i < |paths| ==>
      var row := listing.value[i];
      paths[i] == row.database + "." + row.schema + "." + row.name
  {
    match listing
    case Err(_) => []
    case Ok(rows) =>
      var paths := seq(|rows|, i requires 0 <= i < |rows| => QualifiedName(rows[i]));
      assert forall i :: 0 <= i < |paths| ==> paths[i] == rows[i].database + "." + rows[i].schema + "." + rows[i].name by {
        forall i | 0 <= i < |paths| ensures paths[i] == rows[i].database + "." + rows[i].schema + "." + rows[i].name {
          QualifiedNameDotted(rows[i]);
        }
      }
      paths
  }

  lemma QualifiedNameDotted(row: ServiceRow)
    ensures QualifiedName(row) == row.database + "." + row.schema + "." + row.name
  {
    var parts := [row.database, row.schema, row.name];
    assert parts[1..] == [row.schema, row.name];
    assert parts[1..][1..] == [row.name];
    assert Join(".", [row.schema, row.name]) == row.schema + "." + row.name;
  }

  /** Python `xs.remove(x)` for an `x` that is in `xs`: only the first
      occurrence goes, the other elements keep their order. */
  function RemoveFirst(xs: seq<string>, x: string): (r: seq<string>)
    requires x in xs
    ensures multiset(r) == multiset(xs) - multiset{x}
    ensures Without(r, x) == Without(xs, x)
    ensures exists i :: 0 <= i < |xs| && xs[i] == x && x !in xs[..i] && r == xs[..i] + xs[i + 1..]
  {
    var i := IndexOf(xs, x);
    var r := xs[..i] + xs[i + 1..];
    CutOneCopy(xs, i);
    assert 0 <= i < |xs| && xs[i] == x && x !in xs[..i] && r == xs[..i] + xs[i + 1..];
    r
  }

  /** Cutting out the element at `i` removes one copy of it and nothing else. */
  lemma {:induction false} CutOneCopy<T>(xs: seq<T>, i: nat)
    requires i < |xs|
    ensures multiset(xs[..i] + xs[i + 1..]) == multiset(xs) - multiset{xs[i]}
    ensures Without(xs[..i] + xs[i + 1..], xs[i]) == Without(xs, xs[i])
  {
    assert xs == xs[..i] + ([xs[i]] + xs[i + 1..]);
    WithoutCut(xs[..i], xs[i], xs[i + 1..]);
  }

  lemma {:induction false} WithoutCut<T>(before: seq<T>, x: T, after: seq<T>)
    ensures Without(before + after, x) == Without(before + ([x] + after), x)
  {
    assert Without([x], x) == [] + Without([], x);
    WithoutAppend([x], after, x);
    WithoutAppend(before, [x] + after, x);
    WithoutAppend(before, after, x);
  }

  /** The default service moved to the front of the discovered list; an
      empty default leaves the list as it is. */
  function PutDefaultFirst(discovered: seq<string>, default: string): (r: seq<string>)
    ensures default != "" ==> |r| > 0 && r[0] == default
    ensures default != "" ==>
      multiset(r) == multiset(discovered) + (if default in discovered then multiset{} else multiset{default})
    ensures default == "" ==> r == discovered
    ensures Without(r, default) == Without(discovered, default)
    ensures default != "" && default !in discovered ==> r == [default] + discovered
  {
    if default == "" then discovered
    else if default !in discovered then
      assert ([default] + discovered)[1..] == discovered;
      [default] + discovered
    else
      var rest := RemoveFirst(discovered, default);
      assert ([default] + rest)[1..] == rest;
      [default] + rest
  }

  /** A listed default is moved from its first position to the front, and
      every other element keeps its place in the order. */
  lemma DefaultMovedFromFirstCopy(discovered: seq<string>, default: string)
    requires default != "" && default in discovered
    ensures var i := IndexOf(discovered, default);
      PutDefaultFirst(discovered, default) == [default] + discovered[..i] + discovered[i + 1..]
  {
  }

  /** The default appears exactly once in the reordered list exactly when
      the listing held it at most once. */
  lemma DefaultOnce(discovered: seq<string>, default: string)
    requires default != ""
    ensures Count(PutDefaultFirst(discovered, default), default) == 1
            <==> Count(discovered, default) <= 1
  {
    var r := PutDefaultFirst(discovered, default);
    CountIsMultiplicity(r, default);
    CountIsMultiplicity(discovered, default);
    if default in discovered {
      assert multiset(discovered)[default] >= 1;
    } else {
      assert multiset(discovered)[default] == 0;
    }
  }

  /** What the sidebar offers: a dropdown over the options, or, when there is
      nothing to list, a free-text input prefilled with `prefill`. */
  datatype ServiceChoice = Dropdown(options: seq<string>) | TypeIn(prefill: string)

  function ServiceOptions(discovered: seq<string>, default: string): (c: ServiceChoice)
    ensures c.Dropdown? <==> (|discovered| > 0 || default != "")
    ensures c.Dropdown? ==>
      && |c.options| >= 2
      && c.options[|c.options| - 1] == ManualEntry
      && c.options[..|c.options| - 1] == PutDefaultFirst(discovered, default)
    ensures c.TypeIn? ==> c.prefill == default
  {
    var listed := PutDefaultFirst(discovered, default);
    if listed != [] then
      assert (listed + [ManualEntry])[..|listed|] == listed;
      Dropdown(listed + [ManualEntry])
    else TypeIn(default)
  }

  /** The free-text fallback only appears when the default is empty, so its
      prefill is always the empty string. */
  lemma TypeInPrefillEmpty(discovered: seq<string>, default: string)
    requires ServiceOptions(discovered, default).TypeIn?
    ensures ServiceOptions(discovered, default).prefill == ""
  {
  }

  /** With the page's non-empty constant default (20_Day20.py), the dropdown
      is always shown, opens on the default, and the text-input fallback is
      unreachable. */
  lemma ConstantDefaultAlwaysDropdown(discovered: seq<string>)
    ensures ServiceOptions(discovered, DefaultService).Dropdown?
    ensures ServiceOptions(discovered, DefaultService).options[0] == DefaultService
  {
    var c := ServiceOptions(discovered, DefaultService);
    assert c.options[..|c.options| - 1][0] == c.options[0];
  }

  /** The service the page goes on with: the picked option, or the typed
      path when the sentinel is picked or there is no dropdown. */
  function SelectedService(c: ServiceChoice, picked: nat, typed: string): (service: string)
    requires c.Dropdown? ==> picked < |c.options|
    ensures c.Dropdown? && c.options[picked] != ManualEntry ==> service == c.options[picked]
    ensures c.TypeIn? || c.options[picked] == ManualEntry ==> service == typed
  {
    match c
    case Dropdown(options) => if options[picked] == ManualEntry then typed else options[picked]
    case TypeIn(_) => typed
  }

  /** A dropdown left at its initial position selects the default. */
  lemma InitialSelectionIsDefault(discovered: seq<string>, default: string, typed: string)
    requires default != "" && default != ManualEntry
    ensures SelectedService(ServiceOptions(discovered, default), 0, typed) == default
  {
  }

  /** A service path `database.schema.service_name`. */
  datatype ServicePath = ServicePath(database: string, schema: string, service: string)

  /** `parts = path.split(".")` followed by the `len(parts) != 3` check. */
  function ParsePath(path: string): (r: Result<ServicePath>)
    ensures r.Ok? <==> Count(path, '.') == 2
    ensures r.Err? ==> r.error == PathFormatError
    ensures r.Ok? ==> Join(".", [r.value.database, r.value.schema, r.value.service]) == path
    ensures r.Ok? ==> '.' !in r.value.database && '.' !in r.value.schema && '.' !in r.value.service
  {
    var parts := Split(path, '.');
    if |parts| != 3 then Err(PathFormatError)
    else
      JoinSplit(path, '.');
      assert parts == [parts[0], parts[1], parts[2]];
      Ok(ServicePath(parts[0], parts[1], parts[2]))
  }

  /** A listed service whose names hold no '.' parses back into its row. */
  lemma ListedServiceParses(rows: seq<ServiceRow>, i: nat)
    requires i < |rows|
    requires '.' !in rows[i].database && '.' !in rows[i].schema && '.' !in rows[i].name
    ensures ParsePath(ListServices(Ok(rows))[i])
            == Ok(ServicePath(rows[i].database, rows[i].schema, rows[i].name))
  {
    var parts := [rows[i].database, rows[i].schema, rows[i].name];
    SplitJoin(parts, '.');
  }

  /** A path of two dot-free parts is refused with the format message. */
  lemma TwoPartPathRefused(database: string, schema: string)
    requires '.' !in database && '.' !in schema
    ensures ParsePath(database + "." + schema) == Err(PathFormatError)
  {
    SplitAfterPart(database, '.', schema);
    SplitNoSeparator(schema, '.');
    assert |Split(database + "." + schema, '.')| == 2;
  }

  /** The example of a path missing its service name. */
  lemma DatabaseAndSchemaOnlyRefused()
    ensures ParsePath("RAG_DB.RAG_SCHEMA") == Err(PathFormatError)
  {
    assert "RAG_DB.RAG_SCHEMA" == "RAG_DB" + "." + "RAG_SCHEMA";
    TwoPartPathRefused("RAG_DB", "RAG_SCHEMA");
  }

  /** Empty components are not rejected: `a..b` names database `a`, an empty
      schema and service `b`. */
  lemma EmptySchemaAccepted()
    ensures ParsePath("a..b") == Ok(ServicePath("a", "", "b"))
  {
    var parts := ["a", "", "b"];
    assert Join(".", parts) == "a..b";
    SplitJoin(parts, '.');
    assert Split("a..b", '.') == parts;
  }

  /** A search hit: the requested columns that came back, by name. */
  type Hit = map<string, string>

  /** Python `item.get(column, default)`. */
  function Field(hit: Hit, column: string, default: string): string
  {
    if column in hit then hit[column] else default
  }

  /** What `svc.search(query=..., columns=..., limit=...)` is asked. */
  datatype SearchRequest = SearchRequest(path: ServicePath, query: string, columns: seq<string>, limit: nat)
}
