/**
 * `utiluti app types <app-identifier>`: read an app's `Info.plist` and print the content
 * types of every document type it declares, in the order it declares them.
 */
module AppTypes {
  import opened Base
  import opened Seqs

  /** A property-list value, as Foundation hands it to Swift as `Any`. */
  datatype Item =
    | Text(s: string)
    | List(items: seq<Item>)
    | Record(fields: map<string, Item>)
    | Scalar(description: string)

  /** The three keys of a `CFBundleDocumentTypes` entry the command reads. */
  datatype DocType = DocType(name: string, role: string, contentTypes: seq<string>)

  const DocumentTypesKey := "CFBundleDocumentTypes"
  const NameKey := "CFBundleTypeName"
  const RoleKey := "CFBundleTypeRole"
  const ContentTypesKey := "LSItemContentTypes"

  /** `item as? String`. */
  function AsString(item: Item): (r: Option<string>)
    ensures r.Some? <==> item.Text?
  {
    if item.Text? then Some(item.s) else None
  }

  predicate AllText(items: seq<Item>) {
    forall i :: 0 <= i < |items| ==> items[i].Text?
  }

  predicate AllRecords(items: seq<Item>) {
    forall i :: 0 <= i < |items| ==> items[i].Record?
  }

  /** `item as? [String]`: an array whose every element is a string. */
  function AsStrings(item: Item): (r: Option<seq<string>>)
    ensures r.Some? <==> item.List? && AllText(item.items)
    ensures r.Some? ==> (|r.value| == |item.items| &&
      forall i :: 0 <= i < |r.value| ==> item.items[i] == Text(r.value[i]))
  {
    if item.List? && AllText(item.items) then
      Some(seq(|item.items|, i requires 0 <= i < |item.items| => item.items[i].s))
    else
      None
  }

  /** `item as? [[String: Any]]`: an array whose every element is a dictionary. */
  function AsRecords(item: Item): (r: Option<seq<map<string, Item>>>)
    ensures r.Some? <==> item.List? && AllRecords(item.items)
    ensures r.Some? ==> (|r.value| == |item.items| &&
      forall i :: 0 <= i < |r.value| ==> item.items[i] == Record(r.value[i]))
  {
    if item.List? && AllRecords(item.items) then
      Some(seq(|item.items|, i requires 0 <= i < |item.items| => item.items[i].fields))
    else
      None
  }

  /** `record[key] as? String`: absent when the key is missing or not a string. */
  function StringField(record: map<string, Item>, key: string): Option<string>
  {
    if key in record then AsString(record[key]) else None
  }

  /** `record[key] as? [String]`. */
  function StringsField(record: map<string, Item>, key: string): Option<seq<string>>
  {
    if key in record then AsStrings(record[key]) else None
  }

  /** The guard of the outer loop: a document type is used only when all three fields cast. */
  function AsDocType(record: map<string, Item>): (r: Option<DocType>)
    ensures r.Some? <==>
      && NameKey in record && record[NameKey].Text?
      && RoleKey in record && record[RoleKey].Text?
      && ContentTypesKey in record && record[ContentTypesKey].List? && AllText(record[ContentTypesKey].items)
    ensures r.Some? ==>
      && record[NameKey] == Text(r.value.name)
      && record[RoleKey] == Text(r.value.role)
      && |r.value.contentTypes| == |record[ContentTypesKey].items|
      && forall i :: 0 <= i < |r.value.contentTypes| ==>
           record[ContentTypesKey].items[i] == Text(r.value.contentTypes[i])
  {
    match (StringField(record, NameKey), StringField(record, RoleKey), StringsField(record, ContentTypesKey))
    case (Some(name), Some(role), Some(types)) => Some(DocType(name, role, types))
    case _ => None
  }

  /**
   * The guard before the loops: the app is installed, its bundle and its information
   * dictionary can be read, and that dictionary holds an array of dictionaries under
   * `CFBundleDocumentTypes`. `installed` maps a bundle identifier to the information
   * dictionary of the app the workspace finds for it, `None` when the bundle cannot be
   * opened or has no information dictionary.
   */
  function DocumentTypes(appID: string, installed: map<string, Option<map<string, Item>>>)
    : (r: Option<seq<map<string, Item>>>)
    ensures r.Some? <==>
      && appID in installed && installed[appID].Some?
      && DocumentTypesKey in installed[appID].value
      && installed[appID].value[DocumentTypesKey].List?
      && AllRecords(installed[appID].value[DocumentTypesKey].items)
  {
    if appID in installed && installed[appID].Some? && DocumentTypesKey in installed[appID].value then
      AsRecords(installed[appID].value[DocumentTypesKey])
    else
      None
  }

  /** The line printed for one content type of a document type. */
  function TypeLine(t: string, name: string, role: string, verbose: bool): (line: string)
    ensures !verbose ==> line == t
    ensures |line| >= |t| && line[..|t|] == t
    ensures verbose ==> |line| == |t| + |name| + |role| + 6
    ensures verbose ==> line[|t|..|t| + 3] == " - " && line[|t| + 3..|t| + 3 + |name|] == name
    ensures verbose ==> line[|t| + 3 + |name|..|t| + 5 + |name|] == " (" && line[|t| + 5 + |name|..|line| - 1] == role
    ensures verbose ==> line[|line| - 1] == ')'
  {
    if verbose then t + " - " + name + " (" + role + ")" else t
  }

  function TypeLineFn(name: string, role: string, verbose: bool): string -> string
  {
    t => TypeLine(t, name, role, verbose)
  }

  /** The lines the inner loop prints for one record: none when the record fails the guard. */
  function RecordLines(record: map<string, Item>, verbose: bool): (lines: seq<string>)
    ensures !IsDocType(record) ==> lines == []
    ensures |lines| == |ContentTypes(record)|
    ensures !verbose ==> lines == ContentTypes(record)
    ensures IsDocType(record) ==> forall k :: 0 <= k < |lines| ==>
      lines[k] == TypeLine(ContentTypes(record)[k], AsDocType(record).value.name, AsDocType(record).value.role, verbose)
  {
    match AsDocType(record)
    case None => []
    case Some(dt) => Map(TypeLineFn(dt.name, dt.role, verbose), dt.contentTypes)
  }

  function RecordLinesFn(verbose: bool): map<string, Item> -> seq<string>
  {
    r => RecordLines(r, verbose)
  }

  /** Everything the command prints for the document types of an app, in order. */
  function Listing(records: seq<map<string, Item>>, verbose: bool): seq<string>
  {
    FlatMap(RecordLinesFn(verbose), records)
  }

  predicate IsDocType(record: map<string, Item>) {
    AsDocType(record).Some?
  }

  /** The content types a record declares, none when it fails the guard. */
  function ContentTypes(record: map<string, Item>): seq<string>
  {
    if AsDocType(record).Some? then AsDocType(record).value.contentTypes else []
  }

  lemma ListingSnoc(records: seq<map<string, Item>>, record: map<string, Item>, verbose: bool)
    ensures Listing(records + [record], verbose) == Listing(records, verbose) + RecordLines(record, verbose)
  {
    FlatMapAppend(RecordLinesFn(verbose), records, [record]);
    FlatMapSingleton(RecordLinesFn(verbose), record);
  }

  /** The inner loop: one line per content type of a document type, in order. */
  method PrintTypes(name: string, role: string, types: seq<string>, verbose: bool) returns (lines: seq<string>)
    ensures |lines| == |types|
    ensures forall k :: 0 <= k < |types| ==>
      lines[k] == if verbose then types[k] + " - " + name + " (" + role + ")" else types[k]
  {
    lines := [];
    for j := 0 to |types|
      invariant |lines| == j
      invariant forall k :: 0 <= k < j ==> lines[k] == TypeLine(types[k], name, role, verbose)
    {
      var t := types[j];
      if verbose {
        lines := lines + [t + " - " + name + " (" + role + ")"];
      } else {
        lines := lines + [t];
      }
    }
  }

  /** The outer loop: the lines of every document type that passes the guard, in order. */
  method PrintDocTypes(docTypes: seq<map<string, Item>>, verbose: bool) returns (lines: seq<string>)
    ensures lines == Listing(docTypes, verbose)
  {
    lines := [];
    for i := 0 to |docTypes|
      invariant lines == Listing(docTypes[..i], verbose)
    {
      ListingSnoc(docTypes[..i], docTypes[i], verbose);
      assert docTypes[..i + 1] == docTypes[..i] + [docTypes[i]];
      var docType := docTypes[i];
      var name := StringField(docType, NameKey);
      var role := StringField(docType, RoleKey);
      var types := StringsField(docType, ContentTypesKey);
      if name.None? || role.None? || types.None? {
        continue;
      }
      assert AsDocType(docType) == Some(DocType(name.value, role.value, types.value));
      var printed := PrintTypes(name.value, role.value, types.value, verbose);
      assert printed == RecordLines(docType, verbose);
      lines := lines + printed;
    }
    assert docTypes[..|docTypes|] == docTypes;
  }

  /** `Types.run()`: exits with code 7 when the guard fails, otherwise prints the listing. */
  method ListTypes(appID: string, installed: map<string, Option<map<string, Item>>>, verbose: bool)
    returns (outcome: Outcome, lines: seq<string>)
    ensures DocumentTypes(appID, installed).None? ==> outcome == Exit(7) && lines == []
    ensures DocumentTypes(appID, installed).Some? ==>
      outcome == Completed && lines == Listing(DocumentTypes(appID, installed).value, verbose)
  {
    if appID !in installed || installed[appID].None? {
      return Exit(7), [];
    }
    var info := installed[appID].value;
    if DocumentTypesKey !in info {
      return Exit(7), [];
    }
    var cast := AsRecords(info[DocumentTypesKey]);
    if cast.None? {
      return Exit(7), [];
    }
    lines := PrintDocTypes(cast.value, verbose);
    outcome := Completed;
  }

  // ---------------------------------------------------------------------------
  // What the listing holds
  // ---------------------------------------------------------------------------

  /** Records that fail the guard print nothing: the listing only sees the valid ones. */
  lemma {:induction false} ListingFiltersThenFlattens(records: seq<map<string, Item>>, verbose: bool)
    ensures Listing(records, verbose) == Listing(Filter(IsDocType, records), verbose)
    decreases |records|
  {
    if records != [] {
      var p, x := records[..|records| - 1], records[|records| - 1];
      assert records == p + [x];
      ListingFiltersThenFlattens(p, verbose);
      ListingSnoc(p, x, verbose);
      FilterAppend(IsDocType, p, [x]);
      FilterSingleton(IsDocType, x);
      if IsDocType(x) {
        ListingSnoc(Filter(IsDocType, p), x, verbose);
      } else {
        assert Filter(IsDocType, p) + [] == Filter(IsDocType, p);
      }
    }
  }

  /** A record that fails the guard can be dropped from anywhere in the array. */
  lemma InvalidRecordSkipped(a: seq<map<string, Item>>, record: map<string, Item>, b: seq<map<string, Item>>,
                             verbose: bool)
    requires !IsDocType(record)
    ensures Listing(a + [record] + b, verbose) == Listing(a + b, verbose)
  {
    FlatMapAppend(RecordLinesFn(verbose), a + [record], b);
    FlatMapAppend(RecordLinesFn(verbose), a, [record]);
    FlatMapAppend(RecordLinesFn(verbose), a, b);
    FlatMapSingleton(RecordLinesFn(verbose), record);
  }

  /** Without `--verbose` the output is the content types of the valid records, concatenated in order. */
  lemma {:induction false} PlainListing(records: seq<map<string, Item>>)
    ensures Listing(records, false) == FlatMap(ContentTypes, records)
    decreases |records|
  {
    if records != [] {
      var p, x := records[..|records| - 1], records[|records| - 1];
      PlainListing(p);
      if IsDocType(x) {
        var dt := AsDocType(x).value;
        assert RecordLines(x, false) == dt.contentTypes;
      }
    }
  }

  /** A type is printed (without `--verbose`) exactly when some valid record declares it. */
  lemma PlainListingMember(records: seq<map<string, Item>>, t: string)
    ensures t in Listing(records, false) <==>
      exists j :: 0 <= j < |records| && IsDocType(records[j]) && t in AsDocType(records[j]).value.contentTypes
  {
    PlainListing(records);
    FlatMapMember(ContentTypes, records, t);
  }

  /** The verbose listing has exactly as many lines as the plain one. */
  lemma ListingLength(records: seq<map<string, Item>>)
    ensures |Listing(records, true)| == |Listing(records, false)|
  {
    assert forall j :: 0 <= j < |records| ==> |RecordLinesFn(true)(records[j])| == |RecordLinesFn(false)(records[j])|;
    FlatMapSameLength(RecordLinesFn(true), RecordLinesFn(false), records);
  }

  /**
   * Line i of the verbose listing is line i of the plain listing, a content type of some valid
   * record, followed by that record's name and role.
   */
  lemma VerboseAnnotatesPlain(records: seq<map<string, Item>>, i: nat)
    requires i < |Listing(records, false)|
    ensures |Listing(records, true)| == |Listing(records, false)|
    ensures exists j :: (0 <= j < |records| && IsDocType(records[j]) &&
      Listing(records, false)[i] in AsDocType(records[j]).value.contentTypes &&
      Listing(records, true)[i] ==
        Listing(records, false)[i] + " - " + AsDocType(records[j]).value.name + " (" + AsDocType(records[j]).value.role + ")")
  {
    ListingLength(records);
    assert forall j :: 0 <= j < |records| ==> |RecordLinesFn(false)(records[j])| == |RecordLinesFn(true)(records[j])|;
    FlatMapZip(RecordLinesFn(false), RecordLinesFn(true), records, i);
    var j, k :| 0 <= j < |records| && 0 <= k < |RecordLinesFn(false)(records[j])| &&
      Listing(records, false)[i] == RecordLinesFn(false)(records[j])[k] &&
      Listing(records, true)[i] == RecordLinesFn(true)(records[j])[k];
    RecordLineAnnotated(records[j], k);
  }

  /** Line k of one record's verbose lines is its plain line k followed by the name and the role. */
  lemma RecordLineAnnotated(record: map<string, Item>, k: nat)
    requires k < |RecordLines(record, false)|
    ensures IsDocType(record)
    ensures RecordLines(record, false)[k] in AsDocType(record).value.contentTypes
    ensures RecordLines(record, true)[k] ==
      RecordLines(record, false)[k] + " - " + AsDocType(record).value.name + " (" + AsDocType(record).value.role + ")"
  {
    assert RecordLines(record, false)[k] == AsDocType(record).value.contentTypes[k];
  }

  /** The number of content types the valid records declare, counted record by record. */
  function TypeCount(records: seq<map<string, Item>>): nat
    decreases |records|
  {
    if records == [] then 0 else TypeCount(records[..|records| - 1]) + |ContentTypes(records[|records| - 1])|
  }

  /** The command prints one line per content type of each valid record, in either mode. */
  lemma {:induction false} ListingCount(records: seq<map<string, Item>>, verbose: bool)
    ensures |Listing(records, verbose)| == TypeCount(records)
    decreases |records|
  {
    if records != [] {
      var p, x := records[..|records| - 1], records[|records| - 1];
      assert records == p + [x];
      ListingCount(p, verbose);
      ListingSnoc(p, x, verbose);
    }
  }
}
