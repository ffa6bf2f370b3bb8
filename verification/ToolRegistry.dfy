/** The tool-to-category vocabulary (app/core/tool_registry.py): category is never
    stored, so filtering needs the reverse lookup and counting the forward one. */
module ToolRegistry {
  import opened Seqs
  import opened Ordering

  const UNKNOWN_TOOL_CATEGORY := "Other"

  datatype Entry = Entry(tool: string, category: string)

  /** `entries` is TOOL_REGISTRY, `extras` is _EXTRA_TOOL_CATEGORIES. */
  datatype Registry = Registry(entries: seq<Entry>, extras: seq<Entry>)

  const SHIPPED := Registry(
    [
      Entry("semgrep", "SAST"), Entry("gitleaks", "Secrets"), Entry("noseyparker", "Secrets"),
      Entry("trivy", "SCA"), Entry("trivy-license", "License"), Entry("gosec", "SAST"),
      Entry("checkov", "IaC"), Entry("tfsec", "IaC"), Entry("modelscan", "AI/ML"),
      Entry("semgrep-llm", "AI/ML"), Entry("semgrep-core", "SAST"), Entry("semgrep-registry", "SAST"),
      Entry("garak", "AI/ML"), Entry("medusa", "AI/ML"), Entry("snyk-agent-scan", "AI/ML"),
      Entry("cisco-aibom", "AI/ML"), Entry("kics", "IaC"), Entry("nuclei", "API/DAST")
    ],
    [Entry("api-scan", "API/DAST"), Entry("osv-malware", "Malicious Package")])

  /** No tool is listed twice and none is listed as "Other". */
  predicate Consistent(reg: Registry) {
    var all := reg.entries + reg.extras;
    && (forall i, j :: 0 <= i < j < |all| ==> all[i].tool != all[j].tool)
    && (forall i :: 0 <= i < |all| ==> all[i].category != UNKNOWN_TOOL_CATEGORY)
  }

  function Lookup(entries: seq<Entry>, tool: string, otherwise: string): string {
    if entries == [] then otherwise
    else if entries[0].tool == tool then entries[0].category
    else Lookup(entries[1..], tool, otherwise)
  }

  function ToolCategory(reg: Registry, tool: string): string {
    Lookup(reg.entries, tool, Lookup(reg.extras, tool, UNKNOWN_TOOL_CATEGORY))
  }

  function AllKnownTools(reg: Registry): seq<string> {
    Map(reg.entries, (e: Entry) => e.tool) + Map(reg.extras, (e: Entry) => e.tool)
  }

  function ToolsInCategory(reg: Registry, category: string): seq<string> {
    var inCategory := (e: Entry) => e.category == category;
    Map(Filter(reg.entries, inCategory), (e: Entry) => e.tool)
    + Map(Filter(reg.extras, inCategory), (e: Entry) => e.tool)
  }

  function AllCategories(reg: Registry): (r: seq<string>)
    ensures Distinct(r)
    ensures UNKNOWN_TOOL_CATEGORY in r
  {
    var names := Map(reg.entries, (e: Entry) => e.category) + Map(reg.extras, (e: Entry) => e.category);
    var d := Dedup(names + [UNKNOWN_TOOL_CATEGORY]);
    var r := SortBy(d, (s: string) => Key(0, 0, s, "", 0), false);
    assert UNKNOWN_TOOL_CATEGORY in (names + [UNKNOWN_TOOL_CATEGORY]);
    assert UNKNOWN_TOOL_CATEGORY in multiset(r);
    PermutationDistinct(d, r);
    r
  }

  lemma {:induction false} LookupListed(entries: seq<Entry>, i: nat, otherwise: string)
    requires i < |entries|
    requires forall j, k :: 0 <= j < k < |entries| ==> entries[j].tool != entries[k].tool
    ensures Lookup(entries, entries[i].tool, otherwise) == entries[i].category
  {
    if i > 0 {
      LookupListed(entries[1..], i - 1, otherwise);
    }
  }

  lemma {:induction false} LookupMissing(entries: seq<Entry>, tool: string, otherwise: string)
    requires forall e :: e in entries ==> e.tool != tool
    ensures Lookup(entries, tool, otherwise) == otherwise
  {
    if entries != [] {
      LookupMissing(entries[1..], tool, otherwise);
    }
  }

  lemma EntryAt(reg: Registry, i: nat)
    requires i < |reg.entries + reg.extras|
    ensures (reg.entries + reg.extras)[i] == if i < |reg.entries| then reg.entries[i] else reg.extras[i - |reg.entries|]
  {
  }

  lemma ExtraNotInEntries(reg: Registry, i: nat)
    requires Consistent(reg) && i < |reg.extras|
    ensures forall d :: d in reg.entries ==> d.tool != reg.extras[i].tool
  {
    forall d | d in reg.entries ensures d.tool != reg.extras[i].tool {
      var j :| 0 <= j < |reg.entries| && reg.entries[j] == d;
      EntryAt(reg, j);
      EntryAt(reg, |reg.entries| + i);
    }
  }

  lemma PartsDiffer(reg: Registry)
    requires Consistent(reg)
    ensures forall i, j :: 0 <= i < j < |reg.entries| ==> reg.entries[i].tool != reg.entries[j].tool
    ensures forall i, j :: 0 <= i < j < |reg.extras| ==> reg.extras[i].tool != reg.extras[j].tool
  {
    forall i, j | 0 <= i < j < |reg.entries| ensures reg.entries[i].tool != reg.entries[j].tool {
      EntryAt(reg, i);
      EntryAt(reg, j);
    }
    forall i, j | 0 <= i < j < |reg.extras| ensures reg.extras[i].tool != reg.extras[j].tool {
      EntryAt(reg, |reg.entries| + i);
      EntryAt(reg, |reg.entries| + j);
    }
  }

  lemma CategoryOfEntry(reg: Registry, e: Entry)
    requires Consistent(reg) && (e in reg.entries || e in reg.extras)
    ensures ToolCategory(reg, e.tool) == e.category
  {
    var rest := Lookup(reg.extras, e.tool, UNKNOWN_TOOL_CATEGORY);
    PartsDiffer(reg);
    if e in reg.entries {
      var i :| 0 <= i < |reg.entries| && reg.entries[i] == e;
      LookupListed(reg.entries, i, rest);
    } else {
      var i :| 0 <= i < |reg.extras| && reg.extras[i] == e;
      ExtraNotInEntries(reg, i);
      LookupMissing(reg.entries, e.tool, rest);
      LookupListed(reg.extras, i, UNKNOWN_TOOL_CATEGORY);
    }
  }

  /** The forward and reverse lookups agree, "Other" being exactly the unknown tools. */
  lemma CategoryInverse(reg: Registry, tool: string, category: string)
    requires Consistent(reg)
    ensures category != UNKNOWN_TOOL_CATEGORY ==>
              (tool in ToolsInCategory(reg, category) <==> ToolCategory(reg, tool) == category)
    ensures tool in AllKnownTools(reg) <==> ToolCategory(reg, tool) != UNKNOWN_TOOL_CATEGORY
    ensures ToolCategory(reg, tool) in AllCategories(reg)
  {
    var all := reg.entries + reg.extras;
    var names := Map(reg.entries, (e: Entry) => e.category) + Map(reg.extras, (e: Entry) => e.category);
    if e :| e in all && e.tool == tool {
      CategoryOfEntry(reg, e);
      forall d | d in all && d.tool == tool ensures d == e {
        var i :| 0 <= i < |all| && all[i] == d;
        var j :| 0 <= j < |all| && all[j] == e;
      }
      var k :| 0 <= k < |all| && all[k] == e;
      assert names[k] == e.category;
      CategoryListed(reg, e.category);
      KnownTool(reg, tool);
      ToolOfCategory(reg, tool, category);
    } else {
      LookupMissing(reg.entries, tool, Lookup(reg.extras, tool, UNKNOWN_TOOL_CATEGORY));
      LookupMissing(reg.extras, tool, UNKNOWN_TOOL_CATEGORY);
      KnownTool(reg, tool);
      ToolOfCategory(reg, tool, category);
    }
  }

  lemma CategoryListed(reg: Registry, category: string)
    requires category in Map(reg.entries, (e: Entry) => e.category) + Map(reg.extras, (e: Entry) => e.category)
    ensures category in AllCategories(reg)
  {
    var names := Map(reg.entries, (e: Entry) => e.category) + Map(reg.extras, (e: Entry) => e.category);
    assert category in names + [UNKNOWN_TOOL_CATEGORY];
    assert category in multiset(AllCategories(reg));
  }

  lemma KnownTool(reg: Registry, tool: string)
    ensures tool in AllKnownTools(reg) <==> exists e :: e in reg.entries + reg.extras && e.tool == tool
  {
    var all := reg.entries + reg.extras;
    assert forall k :: 0 <= k < |all| ==> AllKnownTools(reg)[k] == all[k].tool;
    if e :| e in all && e.tool == tool {
      var k :| 0 <= k < |all| && all[k] == e;
      assert AllKnownTools(reg)[k] == tool;
    }
  }

  lemma ToolOfCategory(reg: Registry, tool: string, category: string)
    ensures tool in ToolsInCategory(reg, category) <==>
              exists e :: e in reg.entries + reg.extras && e.tool == tool && e.category == category
  {
    var inCategory := (e: Entry) => e.category == category;
    var a: seq<Entry>, b: seq<Entry> := Filter(reg.entries, inCategory), Filter(reg.extras, inCategory);
    assert forall k :: 0 <= k < |a + b| ==> ToolsInCategory(reg, category)[k] == (a + b)[k].tool;
    if e :| e in reg.entries + reg.extras && e.tool == tool && e.category == category {
      assert e in a + b;
      var k :| 0 <= k < |a + b| && (a + b)[k] == e;
      assert ToolsInCategory(reg, category)[k] == tool;
    }
    if tool in ToolsInCategory(reg, category) {
      var k :| 0 <= k < |a + b| && ToolsInCategory(reg, category)[k] == tool;
      assert (a + b)[k] in reg.entries + reg.extras;
    }
  }

  /** Length, first and last character already tell the shipped names apart. */
  function Mark(tool: string): (int, char, char) {
    if tool == "" then (0, ' ', ' ') else (|tool|, tool[0], tool[|tool| - 1])
  }

  const SHIPPED_MARKS: seq<(int, char, char)> := [
    (7, 's', 'p'), (8, 'g', 's'), (11, 'n', 'r'), (5, 't', 'y'), (13, 't', 'e'), (5, 'g', 'c'), (7, 'c', 'v'),
    (5, 't', 'c'), (9, 'm', 'n'), (11, 's', 'm'), (12, 's', 'e'), (16, 's', 'y'), (5, 'g', 'k'), (6, 'm', 'a'),
    (15, 's', 'n'), (11, 'c', 'm'), (4, 'k', 's'), (6, 'n', 'i'), (8, 'a', 'n'), (11, 'o', 'e')]

  lemma ShippedMarks(i: nat)
    requires i < 20
    ensures Mark((SHIPPED.entries + SHIPPED.extras)[i].tool) == SHIPPED_MARKS[i]
  {
  }

  lemma ShippedToolsApart(i: nat, j: nat)
    requires i < j < 20
    ensures (SHIPPED.entries + SHIPPED.extras)[i].tool != (SHIPPED.entries + SHIPPED.extras)[j].tool
  {
    ShippedMarks(i);
    ShippedMarks(j);
    assert SHIPPED_MARKS[i] != SHIPPED_MARKS[j];
  }

  lemma ShippedCategories(i: nat)
    requires i < 20
    ensures (SHIPPED.entries + SHIPPED.extras)[i].category != UNKNOWN_TOOL_CATEGORY
  {
  }

  /** The registry the product ships is one to which the agreement applies. */
  lemma ShippedIsConsistent()
    ensures Consistent(SHIPPED)
  {
    forall i, j | 0 <= i < j < 20
      ensures (SHIPPED.entries + SHIPPED.extras)[i].tool != (SHIPPED.entries + SHIPPED.extras)[j].tool
    {
      ShippedToolsApart(i, j);
    }
    forall i | 0 <= i < 20 ensures (SHIPPED.entries + SHIPPED.extras)[i].category != UNKNOWN_TOOL_CATEGORY {
      ShippedCategories(i);
    }
  }
}
