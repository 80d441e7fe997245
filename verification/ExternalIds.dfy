/** External ids of a bridge, how ovs-vsctl prints them, and the line scan that reads them back. */
module ExternalIds {
  import opened Basics

  const RAIL_POD_ID := "rail_pod_id"

  /** Key-value pairs in printing order. */
  type Ids = seq<(string, string)>

  ghost predicate UniqueKeys(ids: Ids) {
    forall i, j :: 0 <= i < j < |ids| ==> ids[i].0 != ids[j].0
  }

  /** The value of a key; the empty string when the key is absent, as ovs-vsctl prints it. */
  function Get(ids: Ids, key: string): string {
    if ids == [] then "" else if ids[0].0 == key then ids[0].1 else Get(ids[1..], key)
  }

  function Remove(ids: Ids, key: string): Ids {
    if ids == [] then [] else (if ids[0].0 == key then [] else [ids[0]]) + Remove(ids[1..], key)
  }

  function Put(ids: Ids, key: string, value: string): Ids {
    Remove(ids, key) + [(key, value)]
  }

  lemma {:induction false} RemoveGet(ids: Ids, key: string, k: string)
    ensures Get(Remove(ids, key), k) == if k == key then "" else Get(ids, k)
    ensures forall p :: p in Remove(ids, key) <==> p in ids && p.0 != key
  {
    if ids != [] {
      RemoveGet(ids[1..], key, k);
      var rest := Remove(ids[1..], key);
      if ids[0].0 == key {
        assert Remove(ids, key) == rest;
      } else {
        assert Remove(ids, key)[1..] == rest;
      }
      assert forall p :: p in ids <==> p == ids[0] || p in ids[1..];
    }
  }

  lemma {:induction false} GetAppend(ids: Ids, key: string, value: string, k: string)
    requires forall p :: p in ids ==> p.0 != key
    ensures Get(ids + [(key, value)], k) == if k == key then value else Get(ids, k)
  {
    if ids == [] {
      assert ids + [(key, value)] == [(key, value)];
    } else {
      assert ids[0] in ids;
      assert forall p :: p in ids[1..] ==> p in ids;
      GetAppend(ids[1..], key, value, k);
      assert (ids + [(key, value)])[1..] == ids[1..] + [(key, value)];
    }
  }

  /** A written id reads back, and no other id changes. */
  lemma {:induction false} PutGet(ids: Ids, key: string, value: string, k: string)
    ensures Get(Put(ids, key, value), k) == if k == key then value else Get(ids, k)
  {
    RemoveGet(ids, key, k);
    GetAppend(Remove(ids, key), key, value, k);
  }

  lemma {:induction false} GetPresent(ids: Ids, key: string)
    ensures Get(ids, key) != "" ==> (key, Get(ids, key)) in ids
    ensures UniqueKeys(ids) ==> forall v :: (key, v) in ids ==> Get(ids, key) == v
  {
    if ids != [] {
      GetPresent(ids[1..], key);
      assert forall p :: p in ids <==> p == ids[0] || p in ids[1..];
    }
  }

  lemma {:induction false} RemoveUnique(ids: Ids, key: string)
    requires UniqueKeys(ids)
    ensures UniqueKeys(Remove(ids, key))
  {
    if ids != [] {
      RemoveUnique(ids[1..], key);
      RemoveGet(ids[1..], key, key);
      var rest := Remove(ids[1..], key);
      forall i | 0 <= i < |rest| ensures rest[i].0 != ids[0].0 {
        assert rest[i] in ids[1..];
      }
    }
  }

  lemma {:induction false} PutUnique(ids: Ids, key: string, value: string)
    requires UniqueKeys(ids)
    ensures UniqueKeys(Put(ids, key, value))
  {
    RemoveUnique(ids, key);
    RemoveGet(ids, key, key);
    var rest := Remove(ids, key);
    forall i | 0 <= i < |rest| ensures rest[i].0 != key {
      assert rest[i] in rest;
    }
  }

  // ------------------------------------------------------------------- text

  /** strings.Split with a one-character separator: never empty. */
  function Split(s: string, sep: char): (parts: seq<string>)
    ensures |parts| > 0
  {
    if s == [] then [""]
    else
      var rest := Split(s[1..], sep);
      if s[0] == sep then [""] + rest else [[s[0]] + rest[0]] + rest[1..]
  }

  function Join(parts: seq<string>, sep: char): string {
    if parts == [] then ""
    else if |parts| == 1 then parts[0]
    else parts[0] + [sep] + Join(parts[1..], sep)
  }

  lemma {:induction false} SplitHead(head: string, tail: string, sep: char)
    requires sep !in head
    ensures Split(head + [sep] + tail, sep) == [head] + Split(tail, sep)
  {
    var s := head + [sep] + tail;
    if head == [] {
      assert s[1..] == tail;
    } else {
      assert s[1..] == head[1..] + [sep] + tail;
      SplitHead(head[1..], tail, sep);
      assert [head[0]] + head[1..] == head;
    }
  }

  lemma {:induction false} SplitWhole(s: string, sep: char)
    requires sep !in s
    ensures Split(s, sep) == [s]
  {
    if s != [] {
      SplitWhole(s[1..], sep);
      assert [s[0]] + s[1..] == s;
    }
  }

  /** Splitting undoes joining, except that the empty list comes back as one empty name. */
  lemma {:induction false} SplitJoin(parts: seq<string>, sep: char)
    requires forall p :: p in parts ==> sep !in p
    ensures Split(Join(parts, sep), sep) == if parts == [] then [""] else parts
  {
    if |parts| == 1 {
      assert parts[0] in parts;
      SplitWhole(parts[0], sep);
    } else if |parts| > 1 {
      assert parts[0] in parts;
      assert forall p :: p in parts[1..] ==> p in parts;
      SplitHead(parts[0], Join(parts[1..], sep), sep);
      SplitJoin(parts[1..], sep);
      assert [parts[0]] + parts[1..] == parts;
    }
  }

  predicate StartsWith(s: string, prefix: string) {
    |prefix| <= |s| && s[..|prefix|] == prefix
  }

  /** strings.Contains. */
  predicate Contains(s: string, sub: string) {
    exists i :: 0 <= i <= |s| && OccursAt(s, sub, i)
  }

  predicate OccursAt(s: string, sub: string, i: int) {
    0 <= i <= |s| - |sub| && s[i..i + |sub|] == sub
  }

  // ------------------------------------------------------------ print and scan

  function Line(id: (string, string)): string {
    id.0 + "=" + id.1
  }

  function Lines(ids: Ids): seq<string> {
    if ids == [] then [] else [Line(ids[0])] + Lines(ids[1..])
  }

  /** The output of br-get-external-id, its final newline trimmed. */
  function Print(ids: Ids): string {
    Join(Lines(ids), '\n')
  }

  function ScanLine(line: string): seq<string> {
    if Contains(line, "=" + RAIL_POD_ID) && |Split(line, '=')| >= 2 then [Split(line, '=')[0]] else []
  }

  function ScanLines(lines: seq<string>): seq<string> {
    if lines == [] then [] else ScanLine(lines[0]) + ScanLines(lines[1..])
  }

  /** The pod ids the stale cleanup reads from the printed ids. */
  function Scan(output: string): seq<string> {
    ScanLines(Split(output, '\n'))
  }

  /** Printable: the line format can be taken apart again. */
  ghost predicate Printable(ids: Ids) {
    forall p :: p in ids ==> '=' !in p.0 && '\n' !in p.0 && '\n' !in p.1
  }

  /** Values the line scan takes for the rail tag. */
  predicate LooksLikeRailTag(value: string) {
    StartsWith(value, RAIL_POD_ID) || Contains(value, "=" + RAIL_POD_ID)
  }

  function KeysOf(ids: Ids, want: string -> bool): seq<string> {
    if ids == [] then [] else (if want(ids[0].1) then [ids[0].0] else []) + KeysOf(ids[1..], want)
  }

  function RailPods(ids: Ids): seq<string> {
    KeysOf(ids, (v: string) => v == RAIL_POD_ID)
  }

  lemma {:induction false} OccursShifted(prefix: string, s: string, sub: string, i: nat)
    ensures OccursAt(prefix + s, sub, |prefix| + i) <==> OccursAt(s, sub, i)
  {
    if i + |sub| <= |s| {
      assert (prefix + s)[|prefix| + i..|prefix| + i + |sub|] == s[i..i + |sub|];
    }
  }

  lemma {:induction false} OccursFirst(s: string, sub: string, i: int)
    ensures OccursAt(s, sub, i) && sub != "" ==> s[i] == sub[0]
  {
    if OccursAt(s, sub, i) && sub != "" {
      assert s[i] == s[i..i + |sub|][0];
    }
  }

  /** Where the tag, with its equals sign, can occur in a printed line. */
  lemma {:induction false} OccursInLine(key: string, value: string, tag: string, i: int)
    requires '=' !in key
    ensures OccursAt(Line((key, value)), "=" + tag, i)
       <==> (i == |key| && StartsWith(value, tag)) || (i > |key| && OccursAt(value, "=" + tag, i - |key| - 1))
  {
    var line, full := Line((key, value)), "=" + tag;
    assert line == (key + "=") + value == key + ("=" + value);
    if i < |key| {
      OccursFirst(line, full, i);
      assert i >= 0 ==> key[i] in key && line[i] == key[i];
    } else if i == |key| {
      OccursShifted(key, "=" + value, full, 0);
      assert OccursAt("=" + value, full, 0) <==> StartsWith(value, tag) by {
        if |tag| <= |value| {
          assert ("=" + value)[0..|full|] == "=" + value[..|tag|];
          assert full[1..] == tag && ("=" + value[..|tag|])[1..] == value[..|tag|];
        }
      }
    } else {
      OccursShifted(key + "=", value, full, i - |key| - 1);
    }
  }

  lemma {:induction false} LineContains(key: string, value: string, tag: string)
    requires '=' !in key
    ensures Contains(Line((key, value)), "=" + tag) <==> StartsWith(value, tag) || Contains(value, "=" + tag)
  {
    hide OccursAt, StartsWith;
    var line, full := Line((key, value)), "=" + tag;
    if Contains(line, full) {
      var i :| 0 <= i <= |line| && OccursAt(line, full, i);
      OccursInLine(key, value, tag, i);
    }
    OccursInLine(key, value, tag, |key|);
    if Contains(value, full) {
      var j :| 0 <= j <= |value| && OccursAt(value, full, j);
      OccursInLine(key, value, tag, |key| + 1 + j);
    }
  }

  lemma {:induction false} ScanPrintedLine(key: string, value: string)
    requires '=' !in key
    ensures ScanLine(Line((key, value))) == if LooksLikeRailTag(value) then [key] else []
  {
    LineContains(key, value, RAIL_POD_ID);
    SplitHead(key, value, '=');
  }

  lemma {:induction false} ScanPrintedLines(ids: Ids)
    requires Printable(ids)
    ensures ScanLines(Lines(ids)) == KeysOf(ids, LooksLikeRailTag)
    ensures forall l :: l in Lines(ids) ==> '\n' !in l
    ensures |Lines(ids)| == |ids|
  {
    if ids != [] {
      assert ids[0] in ids;
      assert forall p :: p in ids[1..] ==> p in ids;
      ScanPrintedLines(ids[1..]);
      ScanPrintedLine(ids[0].0, ids[0].1);
      assert Lines(ids)[1..] == Lines(ids[1..]);
    }
  }

  lemma {:induction false} KeysOfElements(ids: Ids, want: string -> bool, k: string)
    ensures k in KeysOf(ids, want) <==> exists v :: (k, v) in ids && want(v)
  {
    if ids != [] {
      KeysOfElements(ids[1..], want, k);
      assert forall p :: p in ids <==> p == ids[0] || p in ids[1..];
      if k in KeysOf(ids, want) && !(ids[0].0 == k && want(ids[0].1)) {
        var v :| (k, v) in ids[1..] && want(v);
        assert (k, v) in ids;
      }
    }
  }

  /** What the scan finds, exactly: the keys whose value looks like the tag. */
  lemma {:induction false} ScanFinds(ids: Ids)
    requires Printable(ids)
    ensures Scan(Print(ids)) == KeysOf(ids, LooksLikeRailTag)
  {
    ScanPrintedLines(ids);
    SplitJoin(Lines(ids), '\n');
    if ids == [] {
      assert Split("", '\n') == [""];
      assert !Contains("", "=" + RAIL_POD_ID);
      assert ScanLines([""]) == ScanLine("") + ScanLines([]);
    }
  }

  /** No value other than the tag itself looks like it. */
  ghost predicate Unmistakable(ids: Ids) {
    forall p :: p in ids && LooksLikeRailTag(p.1) ==> p.1 == RAIL_POD_ID
  }

  lemma {:induction false} KeysOfAgree(ids: Ids)
    ensures |KeysOf(ids, LooksLikeRailTag)| >= |RailPods(ids)|
    ensures Unmistakable(ids) <==> |KeysOf(ids, LooksLikeRailTag)| == |RailPods(ids)|
    ensures Unmistakable(ids) ==> KeysOf(ids, LooksLikeRailTag) == RailPods(ids)
  {
    if ids != [] {
      KeysOfAgree(ids[1..]);
      assert forall p :: p in ids <==> p == ids[0] || p in ids[1..];
      assert RAIL_POD_ID[..|RAIL_POD_ID|] == RAIL_POD_ID;
    }
  }

  /** The scan agrees with the exact test of pod deletion if and only if no other value looks like the tag. */
  lemma {:induction false} ScanIsExactIff(ids: Ids)
    requires Printable(ids)
    ensures Scan(Print(ids)) == RailPods(ids) <==> Unmistakable(ids)
  {
    ScanFinds(ids);
    KeysOfAgree(ids);
  }

  /** Every other value that starts with the tag, or contains "=" and the tag, is taken for it. */
  lemma {:induction false} MistakenTag(key: string, value: string)
    requires '=' !in key && '\n' !in key && '\n' !in value
    requires LooksLikeRailTag(value) && value != RAIL_POD_ID
    ensures Scan(Print([(key, value)])) == [key] && RailPods([(key, value)]) == []
  {
    hide LooksLikeRailTag;
    var ids := [(key, value)];
    ScanFinds(ids);
    assert ids[1..] == [];
    assert RailPods(ids) == [] + RailPods(ids[1..]);
  }

  lemma {:induction false} RailPodsAreTagged(ids: Ids)
    ensures forall k :: k in RailPods(ids) <==> (k, RAIL_POD_ID) in ids
  {
    if ids != [] {
      RailPodsAreTagged(ids[1..]);
      assert forall p :: p in ids <==> p == ids[0] || p in ids[1..];
      assert forall k :: k in RailPods(ids) <==> (ids[0] == (k, RAIL_POD_ID)) || k in RailPods(ids[1..]);
    }
  }

  lemma {:induction false} ScanLinesExtend(lines: seq<string>, line: string)
    ensures ScanLines(lines + [line]) == ScanLines(lines) + ScanLine(line)
  {
    hide ScanLine;
    if lines == [] {
      assert lines + [line] == [line];
    } else {
      assert (lines + [line])[1..] == lines[1..] + [line];
      ScanLinesExtend(lines[1..], line);
    }
  }

  /** The parsing loop of CleanupStaleFlowsForBridges. */
  method ScanExternalIds(output: string) returns (pods: seq<string>)
    ensures pods == Scan(output)
  {
    var lines := Split(output, '\n');
    pods := [];
    for i := 0 to |lines|
      invariant pods == ScanLines(lines[..i])
    {
      var line := lines[i];
      ScanLinesExtend(lines[..i], line);
      assert lines[..i] + [line] == lines[..i + 1];
      if Contains(line, "=" + RAIL_POD_ID) {
        var parts := Split(line, '=');
        if |parts| >= 2 {
          pods := pods + [parts[0]];
        }
      }
    }
    assert lines[..|lines|] == lines;
  }
}
