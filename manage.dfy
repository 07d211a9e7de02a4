/**
 * The `manage` command: read type and URL-scheme associations from two preference
 * domains or from plist files, and apply every entry through the registry's
 * set-handler operation, printing one status line per attempted entry.
 */
module Manage {
  import opened Base
  import opened Seqs
  import Decimal

  /** The preference domain holding type associations. */
  const TypeDomain: string := "com.scriptingosx.utiluti.type"
  /** The preference domain holding URL-scheme associations. */
  const UrlDomain: string := "com.scriptingosx.utiluti.url"

  /** A value of a `[String: Any]` dictionary: a string, or anything else, with the text Swift prints for it. */
  datatype Value = Str(s: string) | Other(description: string)

  /** One key/value pair of a dictionary, as a `for (key, value) in dict` loop sees it. */
  type Entry = (string, Value)

  /** Which registry table an association goes to: uniform type identifiers or URL schemes. */
  datatype Scope = TypeIdentifier | UrlScheme

  /** OSStatus, a signed 32-bit integer. */
  type int32 = x: int | -0x8000_0000 <= x < 0x8000_0000

  /**
   * The registry's set-handler operation, `LSKit.setDefaultApp`, as an oracle:
   * (scope, bundle identifier, key) to a status, 0 meaning success.
   */
  type Registry = (Scope, string, string) -> int32

  /** One call of the set-handler operation. */
  datatype Call = Call(scope: Scope, bundleID: string, key: string)

  /** One printed status line, before it is rendered as text. */
  datatype Line =
    | SetLine(bundleID: string, key: string)
    | ErrorLine(bundleID: string, key: string, status: int32)
    | SkipLine(description: string, key: string)

  /**
   * The text printed for a status line: the formats of the skip notice, the set line and the
   * error line. The three kinds start with different words, so the text tells its kind.
   */
  function Render(l: Line): (text: string)
    ensures KindsByPrefix(text, l.SetLine?, l.ErrorLine?, l.SkipLine?)
  {
    match l
    case SetLine(b, k) =>
      SetLinePrefix(b, k);
      "set " + b + " for " + k
    case ErrorLine(b, k, status) =>
      ErrorLinePrefix(b, k, Decimal.IntToString(status));
      "ERROR: cannot set " + b + " for " + k + " (error " + Decimal.IntToString(status) + ")"
    case SkipLine(d, k) =>
      SkipLinePrefix(d, k);
      "skipping non-string value '" + d + "' for " + k
  }

  /** What the first letters of a printed line say about its kind. */
  predicate KindsByPrefix(text: string, isSet: bool, isError: bool, isSkip: bool) {
    && (isSet <==> |text| >= 4 && text[..4] == "set ")
    && (isError <==> |text| >= 7 && text[..7] == "ERROR: ")
    && (isSkip <==> |text| >= 9 && text[..9] == "skipping ")
  }

  lemma SetLinePrefix(b: string, k: string)
    ensures KindsByPrefix("set " + b + " for " + k, true, false, false)
  {
    var text := "set " + b + " for " + k;
    assert text[..4] == "set " && text[0] == 's' && text[1] == 'e';
  }

  lemma ErrorLinePrefix(b: string, k: string, status: string)
    ensures KindsByPrefix("ERROR: cannot set " + b + " for " + k + " (error " + status + ")", false, true, false)
  {
    var text := "ERROR: cannot set " + b + " for " + k + " (error " + status + ")";
    assert text[..7] == "ERROR: " && text[0] == 'E';
  }

  lemma SkipLinePrefix(d: string, k: string)
    ensures KindsByPrefix("skipping non-string value '" + d + "' for " + k, false, false, true)
  {
    var text := "skipping non-string value '" + d + "' for " + k;
    assert text[..9] == "skipping " && text[0] == 's' && text[1] == 'k';
  }

  // ---------------------------------------------------------------------------
  // Applying one dictionary
  // ---------------------------------------------------------------------------

  /** The lines one entry produces, given the status the registry answers. */
  function EntryLines(e: Entry, scope: Scope, verbose: bool, setHandler: Registry): (lines: seq<Line>)
    ensures e.1.Other? ==> lines == (if verbose then [SkipLine(e.1.description, e.0)] else [])
    ensures e.1.Str? ==> |lines| == 1 && lines[0].key == e.0 && !lines[0].SkipLine? && lines[0].bundleID == e.1.s
    ensures e.1.Str? ==> (lines[0].SetLine? <==> setHandler(scope, e.1.s, e.0) == 0)
    ensures e.1.Str? && lines[0].ErrorLine? ==> lines[0].status == setHandler(scope, e.1.s, e.0)
  {
    match e.1
    case Other(d) => if verbose then [SkipLine(d, e.0)] else []
    case Str(b) =>
      var status := setHandler(scope, b, e.0);
      if status == 0 then [SetLine(b, e.0)] else [ErrorLine(b, e.0, status)]
  }

  /** The registry calls one entry makes. */
  function EntryCalls(e: Entry, scope: Scope): (calls: seq<Call>)
    ensures |calls| == if e.1.Str? then 1 else 0
    ensures e.1.Str? ==> calls[0].scope == scope && calls[0].bundleID == e.1.s && calls[0].key == e.0
  {
    if e.1.Str? then [Call(scope, e.1.s, e.0)] else []
  }

  function LinesFn(scope: Scope, verbose: bool, setHandler: Registry): Entry -> seq<Line>
  {
    e => EntryLines(e, scope, verbose, setHandler)
  }

  function CallsFn(scope: Scope): Entry -> seq<Call>
  {
    e => EntryCalls(e, scope)
  }

  /** The status lines for the entries of s, visited in the order of s. */
  function Report(s: seq<Entry>, scope: Scope, verbose: bool, setHandler: Registry): seq<Line>
  {
    FlatMap(LinesFn(scope, verbose, setHandler), s)
  }

  /** The registry calls for the entries of s, in the order of s. */
  function Calls(s: seq<Entry>, scope: Scope): seq<Call>
  {
    FlatMap(CallsFn(scope), s)
  }

  /** The printed text for the entries of s. */
  function Output(s: seq<Entry>, scope: Scope, verbose: bool, setHandler: Registry): seq<string>
  {
    Map(Render, Report(s, scope, verbose, setHandler))
  }

  predicate DistinctKeys(s: seq<Entry>) {
    forall i, j :: 0 <= i < j < |s| ==> s[i].0 != s[j].0
  }

  /** s lists every pair of d exactly once, in some order. */
  ghost predicate Enumerates(s: seq<Entry>, d: map<string, Value>) {
    multiset(s) == multiset(d.Items)
  }

  /**
   * The lines and calls of one `manageTypes`/`manageURLs` run over d: those of visiting
   * its entries in some order, since Swift leaves the order of a dictionary unspecified.
   */
  ghost predicate Applied(d: map<string, Value>, scope: Scope, verbose: bool, setHandler: Registry,
                          lines: seq<string>, calls: seq<Call>)
  {
    exists s :: Enumerates(s, d) && lines == Output(s, scope, verbose, setHandler) && calls == Calls(s, scope)
  }

  /** Swift's dictionary iteration: every pair once, in an order the model leaves open. */
  method IterationOrder(d: map<string, Value>) returns (s: seq<Entry>)
    ensures Enumerates(s, d)
  {
    s := [];
    var rest := d.Keys;
    while rest != {}
      invariant rest <= d.Keys
      invariant forall e :: multiset(s)[e] == if e in d.Items && e.0 !in rest then 1 else 0
      decreases rest
    {
      var k :| k in rest;
      s := s + [(k, d[k])];
      rest := rest - {k};
    }
    assert multiset(s) == multiset(d.Items) by {
      forall e
        ensures multiset(s)[e] == multiset(d.Items)[e]
      {
      }
    }
  }

  /** `manageTypes` (scope TypeIdentifier) and `manageURLs` (scope UrlScheme). */
  method Manage(d: map<string, Value>, scope: Scope, verbose: bool, setHandler: Registry)
    returns (lines: seq<string>, calls: seq<Call>)
    ensures Applied(d, scope, verbose, setHandler, lines, calls)
  {
    var entries := IterationOrder(d);
    lines, calls := [], [];
    for i := 0 to |entries|
      invariant lines == Output(entries[..i], scope, verbose, setHandler)
      invariant calls == Calls(entries[..i], scope)
    {
      assert entries[..i + 1] == entries[..i] + [entries[i]];
      OutputSnoc(entries[..i], entries[i], scope, verbose, setHandler);
      var (key, value) := entries[i];
      if value.Other? {
        if verbose {
          lines := lines + [Render(SkipLine(value.description, key))];
        }
        continue;
      }
      var bundleID := value.s;
      var result := setHandler(scope, bundleID, key);
      calls := calls + [Call(scope, bundleID, key)];
      if result == 0 {
        lines := lines + [Render(SetLine(bundleID, key))];
      } else {
        lines := lines + [Render(ErrorLine(bundleID, key, result))];
      }
    }
    assert entries[..|entries|] == entries;
  }

  // ---------------------------------------------------------------------------
  // What one dictionary's run prints and calls, for any visiting order
  // ---------------------------------------------------------------------------

  /** Selects the status lines about one key. */
  function LineKey(k: string): Line -> bool
  {
    (l: Line) => l.key == k
  }

  /** Selects the registry calls about one key. */
  function CallKey(k: string): Call -> bool
  {
    (c: Call) => c.key == k
  }

  /** A set line or an error line: the entry was handed to the registry. */
  predicate IsAttempt(l: Line) {
    !l.SkipLine?
  }

  predicate HasString(e: Entry) {
    e.1.Str?
  }

  lemma ReportSnoc(p: seq<Entry>, x: Entry, scope: Scope, verbose: bool, setHandler: Registry)
    ensures Report(p + [x], scope, verbose, setHandler) == Report(p, scope, verbose, setHandler) + EntryLines(x, scope, verbose, setHandler)
    ensures Calls(p + [x], scope) == Calls(p, scope) + EntryCalls(x, scope)
  {
    FlatMapAppend(LinesFn(scope, verbose, setHandler), p, [x]);
    FlatMapAppend(CallsFn(scope), p, [x]);
    FlatMapSingleton(LinesFn(scope, verbose, setHandler), x);
    FlatMapSingleton(CallsFn(scope), x);
  }

  /** Visiting one more entry appends that entry's text and calls. */
  lemma OutputSnoc(p: seq<Entry>, x: Entry, scope: Scope, verbose: bool, setHandler: Registry)
    ensures Output(p + [x], scope, verbose, setHandler) ==
      Output(p, scope, verbose, setHandler) + Map(Render, EntryLines(x, scope, verbose, setHandler))
    ensures Calls(p + [x], scope) == Calls(p, scope) + EntryCalls(x, scope)
  {
    ReportSnoc(p, x, scope, verbose, setHandler);
    MapAppend(Render, Report(p, scope, verbose, setHandler), EntryLines(x, scope, verbose, setHandler));
  }

  /** The lines and calls of one entry are all about that entry's key. */
  lemma EntryFilters(x: Entry, scope: Scope, verbose: bool, setHandler: Registry, k: string)
    ensures Filter(LineKey(k), EntryLines(x, scope, verbose, setHandler)) ==
      if x.0 == k then EntryLines(x, scope, verbose, setHandler) else []
    ensures Filter(CallKey(k), EntryCalls(x, scope)) == if x.0 == k then EntryCalls(x, scope) else []
  {
    var xl := EntryLines(x, scope, verbose, setHandler);
    if xl != [] {
      FilterSingleton(LineKey(k), xl[0]);
      assert xl == [xl[0]];
    }
    if x.1.Str? {
      FilterSingleton(CallKey(k), Call(scope, x.1.s, x.0));
    }
  }

  /**
   * With distinct keys, the lines and calls about the key of entry i are exactly those
   * that entry produces on its own, wherever it stands in the order: the loop visits every
   * entry and no other entry's failure stops it or touches its key.
   */
  lemma EntryHandledAlone(s: seq<Entry>, scope: Scope, verbose: bool, setHandler: Registry, i: nat)
    requires DistinctKeys(s) && i < |s|
    ensures Filter(LineKey(s[i].0), Report(s, scope, verbose, setHandler)) == EntryLines(s[i], scope, verbose, setHandler)
    ensures Filter(CallKey(s[i].0), Calls(s, scope)) == EntryCalls(s[i], scope)
  {
    var k := s[i].0;
    forall j | 0 <= j < |s|
      ensures Filter(LineKey(k), LinesFn(scope, verbose, setHandler)(s[j])) ==
        if j == i then EntryLines(s[i], scope, verbose, setHandler) else []
      ensures Filter(CallKey(k), CallsFn(scope)(s[j])) == if j == i then EntryCalls(s[i], scope) else []
    {
      EntryFilters(s[j], scope, verbose, setHandler, k);
    }
    FilterFlatMapOne(LineKey(k), LinesFn(scope, verbose, setHandler), s, i);
    FilterFlatMapOne(CallKey(k), CallsFn(scope), s, i);
  }

  /**
   * An entry whose value is not a string causes no registry call, and its only line is
   * the skip notice, printed exactly when verbose is set.
   */
  lemma NonStringEntrySkipped(s: seq<Entry>, scope: Scope, verbose: bool, setHandler: Registry, i: nat)
    requires DistinctKeys(s) && i < |s| && s[i].1.Other?
    ensures forall c :: c in Calls(s, scope) ==> c.key != s[i].0
    ensures Filter(LineKey(s[i].0), Report(s, scope, verbose, setHandler)) ==
      if verbose then [SkipLine(s[i].1.description, s[i].0)] else []
  {
    EntryHandledAlone(s, scope, verbose, setHandler, i);
    forall c | c in Calls(s, scope)
      ensures c.key != s[i].0
    {
      FilterMember(CallKey(s[i].0), Calls(s, scope), c);
    }
  }

  /**
   * An entry with a string value causes exactly one registry call, with the value as the
   * bundle identifier and the key as the scope key, and exactly one line: a set line when
   * the status is 0, otherwise an error line carrying the status.
   */
  lemma StringEntryAppliedOnce(s: seq<Entry>, scope: Scope, verbose: bool, setHandler: Registry, i: nat)
    requires DistinctKeys(s) && i < |s| && s[i].1.Str?
    ensures var (key, bundleID) := (s[i].0, s[i].1.s);
      Filter(CallKey(key), Calls(s, scope)) == [Call(scope, bundleID, key)] &&
      Filter(LineKey(key), Report(s, scope, verbose, setHandler)) ==
        var status := setHandler(scope, bundleID, key);
        [if status == 0 then SetLine(bundleID, key) else ErrorLine(bundleID, key, status)]
  {
    EntryHandledAlone(s, scope, verbose, setHandler, i);
  }

  /** The counts for a single entry. */
  lemma EntryCounts(x: Entry, scope: Scope, verbose: bool, setHandler: Registry)
    ensures |EntryCalls(x, scope)| == |Filter(HasString, [x])|
    ensures |Filter(IsAttempt, EntryLines(x, scope, verbose, setHandler))| == |Filter(HasString, [x])|
    ensures |EntryLines(x, scope, verbose, setHandler)| == if verbose then 1 else |Filter(HasString, [x])|
  {
    FilterSingleton(HasString, x);
    var xl := EntryLines(x, scope, verbose, setHandler);
    if xl != [] {
      FilterSingleton(IsAttempt, xl[0]);
      assert xl == [xl[0]];
    } else {
      assert Filter(IsAttempt, xl) == [];
    }
  }

  /**
   * Counting: one call per string entry, one set-or-error line per string entry, and one
   * line per entry in verbose mode (only the string entries otherwise).
   */
  lemma {:induction false} ReportCounts(s: seq<Entry>, scope: Scope, verbose: bool, setHandler: Registry)
    ensures |Calls(s, scope)| == |Filter(HasString, s)|
    ensures |Filter(IsAttempt, Report(s, scope, verbose, setHandler))| == |Filter(HasString, s)|
    ensures |Report(s, scope, verbose, setHandler)| == if verbose then |s| else |Filter(HasString, s)|
    decreases |s|
  {
    if s != [] {
      var p, x := s[..|s| - 1], s[|s| - 1];
      assert s == p + [x];
      ReportCounts(p, scope, verbose, setHandler);
      ReportSnoc(p, x, scope, verbose, setHandler);
      FilterAppend(HasString, p, [x]);
      FilterAppend(IsAttempt, Report(p, scope, verbose, setHandler), EntryLines(x, scope, verbose, setHandler));
      EntryCounts(x, scope, verbose, setHandler);
    }
  }

  /** When the registry accepts every call, no error line is printed. */
  lemma AllAcceptedNoErrors(s: seq<Entry>, scope: Scope, verbose: bool, setHandler: Registry)
    requires forall c :: c in Calls(s, scope) ==> setHandler(c.scope, c.bundleID, c.key) == 0
    ensures forall l :: l in Report(s, scope, verbose, setHandler) ==> !l.ErrorLine?
  {
    forall l | l in Report(s, scope, verbose, setHandler)
      ensures !l.ErrorLine?
    {
      FlatMapMember(LinesFn(scope, verbose, setHandler), s, l);
      var i :| 0 <= i < |s| && l in EntryLines(s[i], scope, verbose, setHandler);
      if s[i].1.Str? {
        var c := Call(scope, s[i].1.s, s[i].0);
        assert c in EntryCalls(s[i], scope);
        FlatMapMember(CallsFn(scope), s, c);
      }
    }
  }

  /** When the registry accepts every call, no printed line starts with "ERROR: ". */
  lemma AllAcceptedNoErrorText(s: seq<Entry>, scope: Scope, verbose: bool, setHandler: Registry)
    requires forall c :: c in Calls(s, scope) ==> setHandler(c.scope, c.bundleID, c.key) == 0
    ensures forall i :: 0 <= i < |Output(s, scope, verbose, setHandler)| ==>
      var text := Output(s, scope, verbose, setHandler)[i]; !(|text| >= 7 && text[..7] == "ERROR: ")
  {
    var report := Report(s, scope, verbose, setHandler);
    AllAcceptedNoErrors(s, scope, verbose, setHandler);
    forall i | 0 <= i < |report|
      ensures var text := Render(report[i]); !(|text| >= 7 && text[..7] == "ERROR: ")
    {
      assert report[i] in report;
    }
  }

  /** Visiting the same entries in another order prints the same lines and makes the same calls, up to order. */
  lemma OrderIrrelevant(s: seq<Entry>, t: seq<Entry>, scope: Scope, verbose: bool, setHandler: Registry)
    requires multiset(s) == multiset(t)
    ensures multiset(Output(s, scope, verbose, setHandler)) == multiset(Output(t, scope, verbose, setHandler))
    ensures multiset(Calls(s, scope)) == multiset(Calls(t, scope))
  {
    FlatMapPermutation(LinesFn(scope, verbose, setHandler), s, t);
    MapPermutation(Render, Report(s, scope, verbose, setHandler), Report(t, scope, verbose, setHandler));
    FlatMapPermutation(CallsFn(scope), s, t);
  }

  /** With distinct keys, no two calls are about the same key. */
  lemma {:induction false} CallsDistinct(s: seq<Entry>, scope: Scope)
    requires DistinctKeys(s)
    ensures forall i, j :: 0 <= i < j < |Calls(s, scope)| ==> Calls(s, scope)[i].key != Calls(s, scope)[j].key
    decreases |s|
  {
    if s != [] {
      var p, x := s[..|s| - 1], s[|s| - 1];
      assert s == p + [x];
      ReportSnoc(p, x, scope, false, (_, _, _) => 0);
      assert DistinctKeys(p);
      CallsDistinct(p, scope);
      var cs := Calls(p, scope);
      forall i | 0 <= i < |cs|
        ensures cs[i].key != x.0
      {
        FlatMapMember(CallsFn(scope), p, cs[i]);
        var j :| 0 <= j < |p| && cs[i] in EntryCalls(p[j], scope);
        assert s[j] == p[j];
      }
    }
  }

  /** Two equal elements at different positions count twice in the multiset. */
  lemma TwiceInMultiset<T>(s: seq<T>, i: nat, j: nat)
    requires i < j < |s|
    ensures s[i] == s[j] ==> multiset(s)[s[i]] >= 2
  {
    var a, b, c := s[..i], s[i + 1..j], s[j + 1..];
    assert s == a + [s[i]] + b + [s[j]] + c;
  }

  /** An enumeration of a dictionary has distinct keys and lists exactly its pairs. */
  lemma EnumerationFacts(s: seq<Entry>, d: map<string, Value>)
    requires Enumerates(s, d)
    ensures DistinctKeys(s)
    ensures forall i :: 0 <= i < |s| ==> s[i].0 in d && d[s[i].0] == s[i].1
    ensures forall k :: k in d ==> exists i :: 0 <= i < |s| && s[i] == (k, d[k])
    ensures |s| == |d|
  {
    forall i | 0 <= i < |s|
      ensures s[i] in d.Items
    {
      assert s[i] in multiset(s);
    }
    forall k | k in d
      ensures exists i :: 0 <= i < |s| && s[i] == (k, d[k])
    {
      assert (k, d[k]) in d.Items;
      assert (k, d[k]) in multiset(s);
    }
    forall i, j | 0 <= i < j < |s|
      ensures s[i].0 != s[j].0
    {
      assert s[i] in d.Items && s[j] in d.Items;
      assert s[i] != s[j] by {
        TwiceInMultiset(s, i, j);
      }
    }
    assert |s| == |multiset(s)| == |multiset(d.Items)| == |d.Items|;
    assert |d.Items| == |d|;
  }

  /**
   * The calls of one dictionary's run are exactly the string entries of the dictionary,
   * one call per key; the run prints one line per entry in verbose mode and one per call
   * otherwise.
   */
  lemma AppliedCalls(d: map<string, Value>, scope: Scope, verbose: bool, setHandler: Registry,
                     lines: seq<string>, calls: seq<Call>)
    requires Applied(d, scope, verbose, setHandler, lines, calls)
    ensures forall c :: c in calls <==> c.scope == scope && c.key in d && d[c.key] == Str(c.bundleID)
    ensures forall i, j :: 0 <= i < j < |calls| ==> calls[i].key != calls[j].key
    ensures |lines| == if verbose then |d| else |calls|
  {
    var s :| Enumerates(s, d) && lines == Output(s, scope, verbose, setHandler) && calls == Calls(s, scope);
    EnumerationFacts(s, d);
    CallsDistinct(s, scope);
    ReportCounts(s, scope, verbose, setHandler);
    CallsOfEnumeration(s, d, scope);
  }

  /** A single call of one dictionary's run sets a string entry of that dictionary. */
  lemma AppliedCall(d: map<string, Value>, scope: Scope, verbose: bool, setHandler: Registry,
                    lines: seq<string>, calls: seq<Call>, c: Call)
    requires Applied(d, scope, verbose, setHandler, lines, calls)
    requires c in calls
    ensures c.scope == scope && c.key in d && d[c.key] == Str(c.bundleID)
  {
    var s :| Enumerates(s, d) && lines == Output(s, scope, verbose, setHandler) && calls == Calls(s, scope);
    CallsOfEnumeration(s, d, scope);
  }

  lemma CallsOfEnumeration(s: seq<Entry>, d: map<string, Value>, scope: Scope)
    requires Enumerates(s, d)
    ensures forall c :: c in Calls(s, scope) <==> c.scope == scope && c.key in d && d[c.key] == Str(c.bundleID)
  {
    EnumerationFacts(s, d);
    forall c
      ensures c in Calls(s, scope) <==> c.scope == scope && c.key in d && d[c.key] == Str(c.bundleID)
    {
      FlatMapMember(CallsFn(scope), s, c);
      if c.scope == scope && c.key in d && d[c.key] == Str(c.bundleID) {
        var i :| 0 <= i < |s| && s[i] == (c.key, d[c.key]);
        assert c in EntryCalls(s[i], scope);
      }
    }
  }

  /** Two runs over the same dictionary differ at most in the order of their lines and calls. */
  lemma AppliedUpToOrder(d: map<string, Value>, scope: Scope, verbose: bool, setHandler: Registry,
                         lines: seq<string>, calls: seq<Call>, lines': seq<string>, calls': seq<Call>)
    requires Applied(d, scope, verbose, setHandler, lines, calls)
    requires Applied(d, scope, verbose, setHandler, lines', calls')
    ensures multiset(lines) == multiset(lines')
    ensures multiset(calls) == multiset(calls')
  {
    var s :| Enumerates(s, d) && lines == Output(s, scope, verbose, setHandler) && calls == Calls(s, scope);
    var t :| Enumerates(t, d) && lines' == Output(t, scope, verbose, setHandler) && calls' == Calls(t, scope);
    OrderIrrelevant(s, t, scope, verbose, setHandler);
  }

  // ---------------------------------------------------------------------------
  // Loading a dictionary from a preference domain or a file
  // ---------------------------------------------------------------------------

  /**
   * A preference domain as the `Preferences` type exposes it: the managed keys (set by a
   * configuration profile), the non-global keys (set locally) and the stored values.
   */
  datatype Preferences = Preferences(managedKeys: seq<string>, nonGlobalKeys: seq<string>, values: map<string, Value>)

  /** A file on disk: a plist whose top level is a string-keyed dictionary, or anything else. */
  datatype FileContents = PropertyList(dict: map<string, Value>) | NotADictionary

  /** What the command can see: the files on disk and the preference domains that open. */
  datatype Environment = Environment(files: map<string, FileContents>, domains: map<string, Preferences>)

  /** The result of loading one source: a dictionary, or the exit code thrown and the lines printed before it. */
  datatype Load = Loaded(dict: map<string, Value>) | Failed(code: int, message: seq<string>)

  /** Where one scope's associations come from. */
  datatype Source = Domain(name: string) | File(path: string)

  /** The command's options: `--type-file`, `--url-file`, `--verbose`, `--include-unmanaged`. */
  datatype Options = Options(typeFile: Option<string>, urlFile: Option<string>, verbose: bool, includeUnmanaged: bool)

  /**
   * The dictionary read from a domain: the stored values of the managed keys, and of the
   * non-global keys too when includeUnmanaged is set.
   */
  function DomainDictionary(prefs: Preferences, includeUnmanaged: bool): (dict: map<string, Value>)
    ensures forall k :: k in dict <==>
      k in prefs.values && (k in prefs.managedKeys || (includeUnmanaged && k in prefs.nonGlobalKeys))
    ensures forall k :: k in dict ==> dict[k] == prefs.values[k]
  {
    map k | k in prefs.values && (k in prefs.managedKeys || (includeUnmanaged && k in prefs.nonGlobalKeys))
      :: prefs.values[k]
  }

  /** `dictionary(fromDefaults:)`: exit code 3 when the domain does not open. */
  function LoadDomain(domains: map<string, Preferences>, name: string, includeUnmanaged: bool): (r: Load)
    ensures r.Failed? <==> name !in domains
    ensures r.Failed? ==> r.code == 3 && r.message == []
    ensures r.Loaded? ==> r.dict == DomainDictionary(domains[name], includeUnmanaged)
  {
    if name !in domains then Failed(3, []) else Loaded(DomainDictionary(domains[name], includeUnmanaged))
  }

  /**
   * `dictionary(forFile:)`: a missing file is exit code 7 with a message, whatever its
   * contents would be; an existing file that is not a string-keyed dictionary is exit
   * code 4; otherwise the whole top-level dictionary, unfiltered.
   */
  function LoadFile(files: map<string, FileContents>, path: string): (r: Load)
    ensures r.Failed? <==> path !in files || files[path].NotADictionary?
    ensures r.Failed? ==> (r.code == 7 <==> path !in files) && (r.code == 4 <==> path in files)
    ensures r.Failed? ==> r.message == if r.code == 7 then ["no file at " + path] else []
    ensures r.Loaded? ==> r.dict == files[path].dict
  {
    if path !in files then Failed(7, ["no file at " + path])
    else match files[path]
      case NotADictionary => Failed(4, [])
      case PropertyList(d) => Loaded(d)
  }

  /** Reads the source: a domain with `dictionary(fromDefaults:)`, a file with `dictionary(forFile:)`. */
  function LoadSource(source: Source, env: Environment, includeUnmanaged: bool): (r: Load)
    ensures source.Domain? ==> (r.Failed? <==> source.name !in env.domains)
    ensures source.Domain? && r.Loaded? ==> r.dict == DomainDictionary(env.domains[source.name], includeUnmanaged)
    ensures source.File? ==> (r.Failed? <==> source.path !in env.files || env.files[source.path].NotADictionary?)
    ensures source.File? && r.Loaded? ==> r.dict == env.files[source.path].dict
    ensures r.Failed? ==> r.code == (if source.Domain? then 3 else if source.path in env.files then 4 else 7)
  {
    match source
    case Domain(name) => LoadDomain(env.domains, name, includeUnmanaged)
    case File(path) => LoadFile(env.files, path)
  }

  /** `dictionary(fromDefaults:)`, building the key set step by step as the source does. */
  method DictionaryFromDefaults(domains: map<string, Preferences>, name: string, includeUnmanaged: bool)
    returns (r: Load)
    ensures r == LoadDomain(domains, name, includeUnmanaged)
  {
    if name !in domains {
      return Failed(3, []);
    }
    var prefs := domains[name];
    var keys := set k | k in prefs.managedKeys;
    if includeUnmanaged {
      keys := keys + set k | k in prefs.nonGlobalKeys;
    }
    r := Loaded(map k | k in keys && k in prefs.values :: prefs.values[k]);
  }

  /** Including unmanaged keys only adds entries: the managed-only dictionary is part of it, unchanged. */
  lemma UnmanagedOnlyAdds(prefs: Preferences, k: string)
    requires k in DomainDictionary(prefs, false)
    ensures k in DomainDictionary(prefs, true)
    ensures DomainDictionary(prefs, true)[k] == DomainDictionary(prefs, false)[k]
  {
  }

  // ---------------------------------------------------------------------------
  // The whole command
  // ---------------------------------------------------------------------------

  /**
   * The sources `run()` reads, in order: both domains when no file option is given,
   * otherwise only the given files, types before URL schemes.
   */
  function Plan(opts: Options): (plan: seq<(Scope, Source)>)
    ensures opts.typeFile.None? && opts.urlFile.None? ==>
      plan == [(TypeIdentifier, Domain(TypeDomain)), (UrlScheme, Domain(UrlDomain))]
    ensures opts.typeFile.Some? || opts.urlFile.Some? ==>
      (forall i :: 0 <= i < |plan| ==> plan[i].1.File?) &&
      (forall i :: 0 <= i < |plan| ==>
        (plan[i].0 == TypeIdentifier ==> opts.typeFile == Some(plan[i].1.path)) &&
        (plan[i].0 == UrlScheme ==> opts.urlFile == Some(plan[i].1.path))) &&
      (forall i, j :: 0 <= i < j < |plan| ==> plan[i].0 == TypeIdentifier && plan[j].0 == UrlScheme) &&
      |plan| == (if opts.typeFile.Some? then 1 else 0) + (if opts.urlFile.Some? then 1 else 0)
  {
    if opts.typeFile.None? && opts.urlFile.None? then
      [(TypeIdentifier, Domain(TypeDomain)), (UrlScheme, Domain(UrlDomain))]
    else
      (if opts.typeFile.Some? then [(TypeIdentifier, File(opts.typeFile.value))] else []) +
      (if opts.urlFile.Some? then [(UrlScheme, File(opts.urlFile.value))] else [])
  }

  /**
   * Running the sources of plan in order: each is loaded, and a load failure throws its
   * exit code before any entry of that scope (or a later one) is applied; a loaded
   * dictionary is applied in full before the next source is read.
   */
  ghost predicate RunsPlan(plan: seq<(Scope, Source)>, env: Environment, verbose: bool, includeUnmanaged: bool,
                           setHandler: Registry, outcome: Outcome, lines: seq<string>, calls: seq<Call>)
    decreases |plan|
  {
    if plan == [] then
      outcome == Completed && lines == [] && calls == []
    else
      match LoadSource(plan[0].1, env, includeUnmanaged)
      case Failed(code, message) => outcome == Exit(code) && lines == message && calls == []
      case Loaded(d) =>
        exists n, m :: 0 <= n <= |lines| && 0 <= m <= |calls| &&
          Applied(d, plan[0].0, verbose, setHandler, lines[..n], calls[..m]) &&
          RunsPlan(plan[1..], env, verbose, includeUnmanaged, setHandler, outcome, lines[n..], calls[m..])
  }

  /** The first step of a run whose first source loads: its dictionary's run, then the rest. */
  lemma RunsPlanFirst(plan: seq<(Scope, Source)>, env: Environment, verbose: bool, includeUnmanaged: bool,
                      setHandler: Registry, outcome: Outcome, lines: seq<string>, calls: seq<Call>)
    returns (n: nat, m: nat)
    requires plan != [] && LoadSource(plan[0].1, env, includeUnmanaged).Loaded?
    requires RunsPlan(plan, env, verbose, includeUnmanaged, setHandler, outcome, lines, calls)
    ensures n <= |lines| && m <= |calls|
    ensures Applied(LoadSource(plan[0].1, env, includeUnmanaged).dict, plan[0].0, verbose, setHandler, lines[..n], calls[..m])
    ensures RunsPlan(plan[1..], env, verbose, includeUnmanaged, setHandler, outcome, lines[n..], calls[m..])
  {
    n, m :| 0 <= n <= |lines| && 0 <= m <= |calls| &&
      Applied(LoadSource(plan[0].1, env, includeUnmanaged).dict, plan[0].0, verbose, setHandler, lines[..n], calls[..m]) &&
      RunsPlan(plan[1..], env, verbose, includeUnmanaged, setHandler, outcome, lines[n..], calls[m..]);
  }

  lemma {:induction false} RunsPlanAppend(p: seq<(Scope, Source)>, q: seq<(Scope, Source)>, env: Environment,
                                          verbose: bool, includeUnmanaged: bool, setHandler: Registry,
                                          lines: seq<string>, calls: seq<Call>,
                                          outcome: Outcome, lines': seq<string>, calls': seq<Call>)
    requires RunsPlan(p, env, verbose, includeUnmanaged, setHandler, Completed, lines, calls)
    requires RunsPlan(q, env, verbose, includeUnmanaged, setHandler, outcome, lines', calls')
    ensures RunsPlan(p + q, env, verbose, includeUnmanaged, setHandler, outcome, lines + lines', calls + calls')
    decreases |p|
  {
    if p == [] {
      assert p + q == q && lines + lines' == lines' && calls + calls' == calls';
    } else {
      match LoadSource(p[0].1, env, includeUnmanaged)
      case Failed(_, _) =>
        assert false;
      case Loaded(d) =>
        var n, m := RunsPlanFirst(p, env, verbose, includeUnmanaged, setHandler, Completed, lines, calls);
        RunsPlanAppend(p[1..], q, env, verbose, includeUnmanaged, setHandler, lines[n..], calls[m..], outcome, lines', calls');
        var pq, ls, cs := p + q, lines + lines', calls + calls';
        SplitAppend(p, q, 1);
        SplitAppend(lines, lines', n);
        SplitAppend(calls, calls', m);
        assert Applied(d, pq[0].0, verbose, setHandler, ls[..n], cs[..m]);
        assert RunsPlan(pq[1..], env, verbose, includeUnmanaged, setHandler, outcome, ls[n..], cs[m..]);
    }
  }

  lemma {:induction false} RunsPlanStops(p: seq<(Scope, Source)>, q: seq<(Scope, Source)>, env: Environment,
                                         verbose: bool, includeUnmanaged: bool, setHandler: Registry,
                                         code: int, lines: seq<string>, calls: seq<Call>)
    requires RunsPlan(p, env, verbose, includeUnmanaged, setHandler, Exit(code), lines, calls)
    ensures RunsPlan(p + q, env, verbose, includeUnmanaged, setHandler, Exit(code), lines, calls)
    decreases |p|
  {
    assert p != [];
    assert (p + q)[0] == p[0] && (p + q)[1..] == p[1..] + q;
    if LoadSource(p[0].1, env, includeUnmanaged).Loaded? {
      var d := LoadSource(p[0].1, env, includeUnmanaged).dict;
      var n, m := RunsPlanFirst(p, env, verbose, includeUnmanaged, setHandler, Exit(code), lines, calls);
      RunsPlanStops(p[1..], q, env, verbose, includeUnmanaged, setHandler, code, lines[n..], calls[m..]);
    }
  }

  /** Reads one source and, when it loads, applies it: one `try dictionary(...)` and one `try await manage...(...)`. */
  method ManageSource(scope: Scope, source: Source, env: Environment, verbose: bool, includeUnmanaged: bool,
                      setHandler: Registry)
    returns (outcome: Outcome, lines: seq<string>, calls: seq<Call>)
    ensures RunsPlan([(scope, source)], env, verbose, includeUnmanaged, setHandler, outcome, lines, calls)
  {
    var loaded: Load;
    match source {
      case Domain(name) =>
        loaded := DictionaryFromDefaults(env.domains, name, includeUnmanaged);
      case File(path) =>
        loaded := LoadFile(env.files, path);
    }
    if loaded.Failed? {
      return Exit(loaded.code), loaded.message, [];
    }
    lines, calls := Manage(loaded.dict, scope, verbose, setHandler);
    outcome := Completed;
    assert [(scope, source)][1..] == [];
    assert lines[..|lines|] == lines && lines[|lines|..] == [];
    assert calls[..|calls|] == calls && calls[|calls|..] == [];
  }

  /** `run()`: chooses the sources, then loads and applies them in order, stopping at the first load failure. */
  method Run(opts: Options, env: Environment, setHandler: Registry)
    returns (outcome: Outcome, lines: seq<string>, calls: seq<Call>)
    ensures RunsPlan(Plan(opts), env, opts.verbose, opts.includeUnmanaged, setHandler, outcome, lines, calls)
  {
    var verbose, includeUnmanaged := opts.verbose, opts.includeUnmanaged;
    if opts.typeFile.None? && opts.urlFile.None? {
      // neither file is given: read both preference domains
      var typeStep, urlStep := (TypeIdentifier, Domain(TypeDomain)), (UrlScheme, Domain(UrlDomain));
      outcome, lines, calls := ManageSource(typeStep.0, typeStep.1, env, verbose, includeUnmanaged, setHandler);
      if outcome.Exit? {
        RunsPlanStops([typeStep], [urlStep], env, verbose, includeUnmanaged, setHandler, outcome.code, lines, calls);
        return;
      }
      var o, l, c := ManageSource(urlStep.0, urlStep.1, env, verbose, includeUnmanaged, setHandler);
      RunsPlanAppend([typeStep], [urlStep], env, verbose, includeUnmanaged, setHandler, lines, calls, o, l, c);
      outcome, lines, calls := o, lines + l, calls + c;
    } else {
      // one or both files are given: read only those
      outcome, lines, calls := Completed, [], [];
      ghost var done: seq<(Scope, Source)> := [];
      if opts.typeFile.Some? {
        var typeStep := (TypeIdentifier, File(opts.typeFile.value));
        outcome, lines, calls := ManageSource(typeStep.0, typeStep.1, env, verbose, includeUnmanaged, setHandler);
        done := [typeStep];
        if outcome.Exit? {
          if opts.urlFile.Some? {
            RunsPlanStops(done, [(UrlScheme, File(opts.urlFile.value))], env, verbose, includeUnmanaged, setHandler,
                          outcome.code, lines, calls);
          } else {
            assert done + [] == done;
          }
          return;
        }
      }
      assert RunsPlan(done, env, verbose, includeUnmanaged, setHandler, outcome, lines, calls);
      if opts.urlFile.Some? {
        var urlStep := (UrlScheme, File(opts.urlFile.value));
        var o, l, c := ManageSource(urlStep.0, urlStep.1, env, verbose, includeUnmanaged, setHandler);
        RunsPlanAppend(done, [urlStep], env, verbose, includeUnmanaged, setHandler, lines, calls, o, l, c);
        outcome, lines, calls := o, lines + l, calls + c;
        done := done + [urlStep];
      }
      assert done == Plan(opts);
    }
  }

  // ---------------------------------------------------------------------------
  // Properties of a whole run
  // ---------------------------------------------------------------------------

  /** Every source of plan loads. */
  predicate LoadsAll(plan: seq<(Scope, Source)>, env: Environment, includeUnmanaged: bool) {
    forall i :: 0 <= i < |plan| ==> LoadSource(plan[i].1, env, includeUnmanaged).Loaded?
  }

  /** Source i of plan is the first that fails to load, and it fails with this exit code. */
  predicate FailsFirstAt(plan: seq<(Scope, Source)>, env: Environment, includeUnmanaged: bool, i: int, code: int) {
    0 <= i < |plan| && LoadSource(plan[i].1, env, includeUnmanaged).Failed? &&
    LoadSource(plan[i].1, env, includeUnmanaged).code == code && LoadsAll(plan[..i], env, includeUnmanaged)
  }

  lemma LoadsAllCons(plan: seq<(Scope, Source)>, env: Environment, includeUnmanaged: bool)
    requires plan != []
    ensures LoadsAll(plan, env, includeUnmanaged) <==>
      LoadSource(plan[0].1, env, includeUnmanaged).Loaded? && LoadsAll(plan[1..], env, includeUnmanaged)
  {
    if LoadSource(plan[0].1, env, includeUnmanaged).Loaded? && LoadsAll(plan[1..], env, includeUnmanaged) {
      forall i | 0 < i < |plan|
        ensures LoadSource(plan[i].1, env, includeUnmanaged).Loaded?
      {
        assert plan[i] == plan[1..][i - 1];
      }
    }
  }

  lemma FailsFirstAtCons(plan: seq<(Scope, Source)>, env: Environment, includeUnmanaged: bool, i: int, code: int)
    requires plan != [] && LoadSource(plan[0].1, env, includeUnmanaged).Loaded?
    requires FailsFirstAt(plan[1..], env, includeUnmanaged, i, code)
    ensures FailsFirstAt(plan, env, includeUnmanaged, i + 1, code)
  {
    assert plan[i + 1] == plan[1..][i];
    assert plan[..i + 1][1..] == plan[1..][..i];
    LoadsAllCons(plan[..i + 1], env, includeUnmanaged);
  }

  /**
   * A run completes exactly when every planned source loads; otherwise it ends with the exit
   * code (3, 4 or 7) of the first source that failed, every source before it having loaded.
   */
  lemma {:induction false} RunOutcome(plan: seq<(Scope, Source)>, env: Environment, verbose: bool,
                                      includeUnmanaged: bool, setHandler: Registry,
                                      outcome: Outcome, lines: seq<string>, calls: seq<Call>)
    requires RunsPlan(plan, env, verbose, includeUnmanaged, setHandler, outcome, lines, calls)
    ensures outcome == Completed <==> LoadsAll(plan, env, includeUnmanaged)
    ensures outcome.Exit? ==> outcome.code in {3, 4, 7}
    ensures outcome.Exit? ==> exists i :: FailsFirstAt(plan, env, includeUnmanaged, i, outcome.code)
    decreases |plan|
  {
    if plan != [] {
      LoadsAllCons(plan, env, includeUnmanaged);
      var load := LoadSource(plan[0].1, env, includeUnmanaged);
      if load.Failed? {
        assert plan[..0] == [];
        assert FailsFirstAt(plan, env, includeUnmanaged, 0, outcome.code);
      } else {
        var n, m := RunsPlanFirst(plan, env, verbose, includeUnmanaged, setHandler, outcome, lines, calls);
        RunOutcome(plan[1..], env, verbose, includeUnmanaged, setHandler, outcome, lines[n..], calls[m..]);
        if outcome.Exit? {
          var i :| FailsFirstAt(plan[1..], env, includeUnmanaged, i, outcome.code);
          FailsFirstAtCons(plan, env, includeUnmanaged, i, outcome.code);
        }
      }
    }
  }

  /** Call c sets, in its scope, the string value that some source of the plan that loaded holds for its key. */
  predicate FromLoadedSource(plan: seq<(Scope, Source)>, env: Environment, includeUnmanaged: bool, c: Call) {
    exists i :: (0 <= i < |plan| && plan[i].0 == c.scope &&
      LoadSource(plan[i].1, env, includeUnmanaged).Loaded? &&
      c.key in LoadSource(plan[i].1, env, includeUnmanaged).dict &&
      LoadSource(plan[i].1, env, includeUnmanaged).dict[c.key] == Str(c.bundleID))
  }

  lemma FromLoadedSourceTail(plan: seq<(Scope, Source)>, env: Environment, includeUnmanaged: bool, c: Call)
    requires plan != [] && FromLoadedSource(plan[1..], env, includeUnmanaged, c)
    ensures FromLoadedSource(plan, env, includeUnmanaged, c)
  {
    var i :| 0 <= i < |plan[1..]| && plan[1..][i].0 == c.scope &&
      LoadSource(plan[1..][i].1, env, includeUnmanaged).Loaded? &&
      c.key in LoadSource(plan[1..][i].1, env, includeUnmanaged).dict &&
      LoadSource(plan[1..][i].1, env, includeUnmanaged).dict[c.key] == Str(c.bundleID);
    assert plan[i + 1] == plan[1..][i];
  }

  /** Every registry call of a run applies a string entry of a source that loaded, in that source's scope. */
  lemma {:induction false} RunCallFromLoadedSource(plan: seq<(Scope, Source)>, env: Environment, verbose: bool,
                                                   includeUnmanaged: bool, setHandler: Registry,
                                                   outcome: Outcome, lines: seq<string>, calls: seq<Call>, c: Call)
    requires RunsPlan(plan, env, verbose, includeUnmanaged, setHandler, outcome, lines, calls)
    requires c in calls
    ensures FromLoadedSource(plan, env, includeUnmanaged, c)
    decreases |plan|
  {
    if plan != [] && LoadSource(plan[0].1, env, includeUnmanaged).Loaded? {
      var load := LoadSource(plan[0].1, env, includeUnmanaged);
      var n, m := RunsPlanFirst(plan, env, verbose, includeUnmanaged, setHandler, outcome, lines, calls);
      assert calls == calls[..m] + calls[m..];
      if c in calls[..m] {
        AppliedCall(load.dict, plan[0].0, verbose, setHandler, lines[..n], calls[..m], c);
        assert FromLoadedSource(plan, env, includeUnmanaged, c) by {
          assert plan[0].0 == c.scope;
        }
      } else {
        RunCallFromLoadedSource(plan[1..], env, verbose, includeUnmanaged, setHandler, outcome, lines[n..], calls[m..], c);
        FromLoadedSourceTail(plan, env, includeUnmanaged, c);
      }
    }
  }

  /**
   * With only a type file given, the URL-scheme scope is not processed at all: it does not
   * fall back to its preference domain, so every call is about a type identifier.
   */
  lemma TypeFileAloneSkipsUrls(opts: Options, env: Environment, setHandler: Registry,
                               outcome: Outcome, lines: seq<string>, calls: seq<Call>)
    requires opts.typeFile.Some? && opts.urlFile.None?
    requires RunsPlan(Plan(opts), env, opts.verbose, opts.includeUnmanaged, setHandler, outcome, lines, calls)
    ensures forall c :: c in calls ==> c.scope == TypeIdentifier
  {
    forall c | c in calls
      ensures c.scope == TypeIdentifier
    {
      RunCallFromLoadedSource(Plan(opts), env, opts.verbose, opts.includeUnmanaged, setHandler, outcome, lines, calls, c);
    }
  }

  /**
   * When the type file fails to load, the run ends with that failure: the URL file, if any,
   * is never read and no registry call is made.
   */
  lemma TypeFileFailureStopsRun(opts: Options, env: Environment, setHandler: Registry,
                                outcome: Outcome, lines: seq<string>, calls: seq<Call>)
    requires opts.typeFile.Some? && LoadFile(env.files, opts.typeFile.value).Failed?
    requires RunsPlan(Plan(opts), env, opts.verbose, opts.includeUnmanaged, setHandler, outcome, lines, calls)
    ensures outcome == Exit(LoadFile(env.files, opts.typeFile.value).code)
    ensures lines == LoadFile(env.files, opts.typeFile.value).message && calls == []
  {
    assert Plan(opts)[0] == (TypeIdentifier, File(opts.typeFile.value));
  }

  /** Listing the one pair of a one-entry dictionary. */
  lemma SingletonEnumeration(s: seq<Entry>, k: string, v: Value)
    requires Enumerates(s, map[k := v])
    ensures s == [(k, v)]
  {
    var d := map[k := v];
    assert |s| == |multiset(s)| == |d.Items| == |d| == 1;
    assert s[0] in multiset(s);
    assert s[0] in d.Items;
    assert s[0].0 in d && d[s[0].0] == s[0].1;
    assert s[0] == (k, v);
    assert s == [s[0]];
  }

  /** Applying a one-entry dictionary prints that entry's line, if any, and makes its call, if any. */
  lemma AppliedSingleton(k: string, v: Value, scope: Scope, verbose: bool, setHandler: Registry,
                         lines: seq<string>, calls: seq<Call>)
    requires Applied(map[k := v], scope, verbose, setHandler, lines, calls)
    ensures lines == Map(Render, EntryLines((k, v), scope, verbose, setHandler))
    ensures calls == EntryCalls((k, v), scope)
  {
    var s :| Enumerates(s, map[k := v]) && lines == Output(s, scope, verbose, setHandler) && calls == Calls(s, scope);
    SingletonEnumeration(s, k, v);
    ReportSnoc([], (k, v), scope, verbose, setHandler);
    assert [] + [(k, v)] == s;
  }

  /** A run of a single file that loads is that file's dictionary applied in full. */
  lemma SingleFileRun(scope: Scope, path: string, env: Environment, verbose: bool, includeUnmanaged: bool,
                      setHandler: Registry, outcome: Outcome, lines: seq<string>, calls: seq<Call>)
    requires path in env.files && env.files[path].PropertyList?
    requires RunsPlan([(scope, File(path))], env, verbose, includeUnmanaged, setHandler, outcome, lines, calls)
    ensures outcome == Completed
    ensures Applied(env.files[path].dict, scope, verbose, setHandler, lines, calls)
  {
    var plan := [(scope, File(path))];
    var n, m := RunsPlanFirst(plan, env, verbose, includeUnmanaged, setHandler, outcome, lines, calls);
    assert plan[1..] == [];
    assert lines[..n] == lines && calls[..m] == calls;
  }

  lemma SetLineText()
    ensures Render(SetLine("com.example.browser", "public.html")) == "set com.example.browser for public.html"
  {
    assert "set " + "com.example.browser" == "set com.example.browser";
    assert "set com.example.browser" + " for " == "set com.example.browser for ";
    assert "set com.example.browser for " + "public.html" == "set com.example.browser for public.html";
  }

  lemma SkipLineText()
    ensures Render(SkipLine("42", "public.html")) == "skipping non-string value '42' for public.html"
  {
    assert "skipping non-string value '" + "42" == "skipping non-string value '42";
    assert "skipping non-string value '42" + "' for " == "skipping non-string value '42' for ";
    assert "skipping non-string value '42' for " + "public.html" == "skipping non-string value '42' for public.html";
  }

  /**
   * A type file holding `{"public.html": "com.example.browser"}`, with the registry
   * accepting that pair, prints exactly `set com.example.browser for public.html`.
   */
  lemma FileScenarioSetsHandler(setHandler: Registry, outcome: Outcome, lines: seq<string>, calls: seq<Call>)
    requires setHandler(TypeIdentifier, "com.example.browser", "public.html") == 0
    requires RunsPlan(Plan(Options(Some("types.plist"), None, false, false)),
                      Environment(map["types.plist" := PropertyList(map["public.html" := Str("com.example.browser")])], map[]),
                      false, false, setHandler, outcome, lines, calls)
    ensures outcome == Completed
    ensures lines == ["set com.example.browser for public.html"]
    ensures calls == [Call(TypeIdentifier, "com.example.browser", "public.html")]
  {
    var env := Environment(map["types.plist" := PropertyList(map["public.html" := Str("com.example.browser")])], map[]);
    assert Plan(Options(Some("types.plist"), None, false, false)) == [(TypeIdentifier, File("types.plist"))];
    SingleFileRun(TypeIdentifier, "types.plist", env, false, false, setHandler, outcome, lines, calls);
    AppliedSingleton("public.html", Str("com.example.browser"), TypeIdentifier, false, setHandler, lines, calls);
    SetLineText();
  }

  /**
   * A type file holding `{"public.html": 42}` in verbose mode makes no registry call and
   * prints only the skip notice for `public.html`.
   */
  lemma FileScenarioSkipsNonString(setHandler: Registry, outcome: Outcome, lines: seq<string>, calls: seq<Call>)
    requires RunsPlan(Plan(Options(Some("types.plist"), None, true, false)),
                      Environment(map["types.plist" := PropertyList(map["public.html" := Other("42")])], map[]),
                      true, false, setHandler, outcome, lines, calls)
    ensures outcome == Completed
    ensures lines == ["skipping non-string value '42' for public.html"]
    ensures calls == []
  {
    var env := Environment(map["types.plist" := PropertyList(map["public.html" := Other("42")])], map[]);
    assert Plan(Options(Some("types.plist"), None, true, false)) == [(TypeIdentifier, File("types.plist"))];
    SingleFileRun(TypeIdentifier, "types.plist", env, true, false, setHandler, outcome, lines, calls);
    AppliedSingleton("public.html", Other("42"), TypeIdentifier, true, setHandler, lines, calls);
    SkipLineText();
  }
}
