/** Discovery of prerendered components in the delivered document: start and
    end boundary comments are paired among siblings, the tree is walked in
    document order, and the valid pairs become component entries. Comments
    arrive already classified; the text patterns and the JSON payload parser
    that classify them are not part of this model. */
module Discovery {
  import opened Common

  /** A JSON value as read from a start marker's payload. */
  datatype Json = Undefined | Null | Bool(b: bool) | Number(n: int) | Text(s: string) | Composite

  /** A start marker's payload: JSON that failed to parse, or the three
      fields the marker carries. */
  datatype StartJson = Unparsable | Fields(componentId: Json, circuitId: Json, rendererId: Json)

  /** A node of the document. `Start` is a comment whose text matches the
      start-marker pattern with a non-empty JSON part; `End` is a comment
      whose text matches the end-marker pattern, with its decimal component
      id; every other node (elements, text, other comments) is `Other`. */
  datatype Node =
    | Start(payload: StartJson)
    | End(componentId: nat)
    | Other(children: seq<Node>)

  /** A start marker as classified: its well-formedness and its ids, the
      component and renderer ids as `parseInt` reads them (`None` for NaN). */
  datatype StartInfo = StartInfo(wellFormed: bool, componentId: Option<int>, circuitId: Json, rendererId: Option<int>)

  /** The outcome of the search for a start marker's end: whether a matching
      end was found, its sibling index (the child count when none was), and
      the indices of the end markers of other components passed on the way. */
  datatype EndScan = EndScan(found: bool, index: nat, malformed: seq<nat>)

  /** A start marker with its end. The start node is identified by its path
      of child indices from the document root; the end node is the sibling
      at the end's index. */
  datatype CommentPair = CommentPair(valid: bool, start: StartInfo, at: seq<nat>, end: Option<EndScan>)

  /** JavaScript truthiness of a JSON value. */
  predicate Truthy(v: Json) {
    match v
      case Undefined => false
      case Null => false
      case Bool(b) => b
      case Number(n) => n != 0
      case Text(s) => s != []
      case Composite => true
  }

  predicate IsDigit(c: char) {
    '0' <= c <= '9'
  }

  /** The value of the leading decimal digits of `s`, scanned from the left. */
  function DigitsValue(s: string, acc: nat): (value: nat)
    ensures s == [] ==> value == acc
    decreases |s|
  {
    if s == [] || !IsDigit(s[0]) then acc
    else DigitsValue(s[1..], acc * 10 + (s[0] as int - '0' as int))
  }

  /** `Number.parseInt` on a JSON value: a number is its own value, a string
      its leading decimal digits, anything else NaN (`None`). */
  function ParseInt(v: Json): (r: Option<int>)
    ensures v.Number? ==> r == Some(v.n)
    ensures r.Some? ==> v.Number? || (v.Text? && v.s != [] && IsDigit(v.s[0]))
  {
    match v
      case Number(n) => Some(n)
      case Text(s) => if s != [] && IsDigit(s[0]) then Some(DigitsValue(s, 0)) else None
      case _ => None
  }

  /** Classifies a node as a start marker. A marker is well-formed exactly
      when its payload parsed and its component, circuit and renderer ids
      are all truthy; a payload that did not parse yields a malformed marker
      without ids. */
  function GetComponentStartComment(node: Node): (start: Option<StartInfo>)
    ensures start.Some? <==> node.Start?
    ensures start.Some? ==>
              (start.value.wellFormed <==>
                 && node.payload.Fields?
                 && Truthy(node.payload.componentId)
                 && Truthy(node.payload.circuitId)
                 && Truthy(node.payload.rendererId))
    ensures start.Some? && node.payload.Unparsable? ==> start.value.componentId == None
  {
    match node
      case Start(Unparsable) => Some(StartInfo(false, None, Undefined, None))
      case Start(Fields(componentId, circuitId, rendererId)) =>
        Some(StartInfo(
          Truthy(componentId) && Truthy(circuitId) && Truthy(rendererId),
          ParseInt(componentId), circuitId, ParseInt(rendererId)))
      case _ => None
  }

  /** Whether `node` is the end marker of component `componentId` (a NaN id
      matches nothing). */
  predicate MatchesEnd(node: Node, componentId: Option<int>) {
    node.End? && componentId == Some(node.componentId)
  }

  predicate StrictlyAscending(s: seq<nat>) {
    forall j, k :: 0 <= j < k < |s| ==> s[j] < s[k]
  }

  /** The end search among `children` from index `from`: the first matching
      end marker, every end marker of another component before it recorded
      as malformed, or the child count when none matches. */
  function FindEnd(children: seq<Node>, componentId: Option<int>, from: nat): (scan: EndScan)
    requires from <= |children|
    ensures from <= scan.index <= |children|
    ensures scan.found <==> scan.index < |children|
    ensures scan.found ==> MatchesEnd(children[scan.index], componentId)
    ensures forall j :: from <= j < scan.index ==> !MatchesEnd(children[j], componentId)
    ensures forall j :: j in scan.malformed <==>
              from <= j < scan.index && children[j].End? && !MatchesEnd(children[j], componentId)
    ensures StrictlyAscending(scan.malformed)
    decreases |children| - from
  {
    if from == |children| then EndScan(false, |children|, [])
    else if MatchesEnd(children[from], componentId) then EndScan(true, from, [])
    else
      var rest := FindEnd(children, componentId, from + 1);
      if children[from].End? then
        assert forall k :: 0 <= k < |rest.malformed| ==> rest.malformed[k] in rest.malformed;
        rest.(malformed := [from] + rest.malformed)
      else rest
  }

  /** The search for the end of `start` among `children` from `index`,
      recording passed end markers of other components. (The source also
      takes the child count as the bound; its only caller passes exactly
      that.) */
  method GetComponentEndComment(start: StartInfo, children: seq<Node>, index: nat) returns (scan: EndScan)
    requires index <= |children|
    ensures scan == FindEnd(children, start.componentId, index)
  {
    var malformed: seq<nat> := [];
    for i := index to |children|
      invariant FindEnd(children, start.componentId, index) ==
                var rest := FindEnd(children, start.componentId, i); rest.(malformed := malformed + rest.malformed)
    {
      var node := children[i];
      if !node.End? {
        continue;
      }
      if MatchesEnd(node, start.componentId) {
        return EndScan(true, i, malformed);
      }
      ghost var rest := FindEnd(children, start.componentId, i + 1);
      assert malformed + ([i] + rest.malformed) == (malformed + [i]) + rest.malformed;
      malformed := malformed + [i];
    }
    return EndScan(false, |children|, malformed);
  }

  /** The shape every pair has: only a well-formed start has an end, the
      pair is valid exactly when that end was found, and the end lies after
      the start among its siblings. */
  predicate WellShaped(p: CommentPair) {
    && |p.at| > 0
    && (p.start.wellFormed <==> p.end.Some?)
    && (p.valid <==> p.end.Some? && p.end.value.found)
    && (p.end.Some? ==> p.end.value.index > p.at[|p.at| - 1])
  }

  /** `p` was found below the node at `path`, in or under its child `i` or a
      later one. */
  predicate Below(p: CommentPair, path: seq<nat>, i: nat) {
    && |p.at| > |path|
    && p.at[..|path|] == path
    && p.at[|path|] >= i
  }

  function Children(node: Node): seq<Node> {
    if node.Other? then node.children else []
  }

  /** The pairs of the subtree at `node` (whose path is `path`), in document
      order. A node without children yields none. */
  function Pairs(node: Node, path: seq<nat>): (r: seq<CommentPair>)
    ensures Children(node) == [] ==> r == []
    ensures forall p | p in r :: WellShaped(p) && Below(p, path, 0)
    decreases node, 1
  {
    if node.Other? then PairsFrom(node, path, 0) else []
  }

  /** The pairs found by the sibling scan of `node`'s children from child
      `i` on. A child that is not a start marker contributes the pairs of its
      own subtree; a well-formed start is paired with its end and the scan
      resumes after that end (after the last child when none matched); a
      malformed start yields an invalid pair and the scan moves to the next
      child. */
  function PairsFrom(node: Node, path: seq<nat>, i: nat): (r: seq<CommentPair>)
    requires node.Other?
    ensures forall p | p in r :: WellShaped(p) && Below(p, path, i)
    decreases node, 0, |node.children| + 1 - i
  {
    if i >= |node.children| then []
    else
      var child := node.children[i];
      match GetComponentStartComment(child)
        case None =>
          var inner := Pairs(child, path + [i]);
          assert forall p | p in inner :: p.at[..|path|] == (p.at[..|path| + 1])[..|path|];
          inner + PairsFrom(node, path, i + 1)
        case Some(start) =>
          if start.wellFormed then
            var scan := FindEnd(node.children, start.componentId, i + 1);
            [CommentPair(start.wellFormed && scan.found, start, path + [i], Some(scan))]
              + PairsFrom(node, path, scan.index + 1)
          else
            [CommentPair(false, start, path + [i], None)] + PairsFrom(node, path, i + 1)
  }

  /** The walk of the subtree at `node`: the sibling scan of its children,
      descending into every child that is not a start marker. */
  method ResolveCommentPairs(node: Node, path: seq<nat>) returns (result: seq<CommentPair>)
    ensures result == Pairs(node, path)
    decreases node, 1
  {
    if Children(node) == [] {
      return [];
    }
    result := [];
    var i := 0;
    var childrenLength := |node.children|;
    while i < childrenLength
      invariant i <= childrenLength + 1
      invariant result + PairsFrom(node, path, i) == PairsFrom(node, path, 0)
      decreases childrenLength - i
    {
      result, i := ScanChild(node, path, i, result);
    }
  }

  /** One turn of the sibling scan at child `i`, appending what it finds to
      `result` and returning the index the scan resumes at. */
  method ScanChild(node: Node, path: seq<nat>, i: nat, result: seq<CommentPair>)
    returns (extended: seq<CommentPair>, next: nat)
    requires node.Other? && i < |node.children|
    ensures i < next <= |node.children| + 1
    ensures extended + PairsFrom(node, path, next) == result + PairsFrom(node, path, i)
    decreases node, 0
  {
    var children := node.children;
    var currentChildNode := children[i];
    var startComponent := GetComponentStartComment(currentChildNode);
    if startComponent.None? {
      var childResults := ResolveCommentPairs(currentChildNode, path + [i]);
      extended := AppendAll(result, childResults);
      return extended, i + 1;
    }
    var start := startComponent.value;
    if start.wellFormed {
      var endComponent := GetComponentEndComment(start, children, i + 1);
      extended := result + [CommentPair(start.wellFormed && endComponent.found, start, path + [i], Some(endComponent))];
      next := endComponent.index + 1;
    } else {
      extended := result + [CommentPair(false, start, path + [i], None)];
      next := i + 1;
    }
  }

  /** Pushes every pair of `items` onto `result`, in order. */
  method AppendAll(result: seq<CommentPair>, items: seq<CommentPair>) returns (extended: seq<CommentPair>)
    ensures extended == result + items
  {
    extended := result;
    for j := 0 to |items|
      invariant extended == result + items[..j]
    {
      extended := extended + [items[j]];
    }
    assert items[..|items|] == items;
  }

  /** When a well-formed start marker at child `i` has no matching end, its
      pair is invalid, its end index is the child count, and no later
      sibling of it is scanned. */
  lemma UnterminatedStartEndsScan(node: Node, path: seq<nat>, i: nat)
    requires node.Other? && i < |node.children|
    requires GetComponentStartComment(node.children[i]).Some?
    requires GetComponentStartComment(node.children[i]).value.wellFormed
    requires !FindEnd(node.children, GetComponentStartComment(node.children[i]).value.componentId, i + 1).found
    ensures |PairsFrom(node, path, i)| == 1
    ensures var p := PairsFrom(node, path, i)[0];
            && !p.valid && p.at == path + [i]
            && p.end.Some? && p.end.value.index == |node.children|
  {
  }

  /** When a well-formed start marker at child `i` is matched by the end at
      child `k`, the pair is valid and nothing in or under children `i + 1`
      to `k` yields a pair: the scan resumes after the end. */
  lemma MatchedStartSkipsEnclosed(node: Node, path: seq<nat>, i: nat)
    requires node.Other? && i < |node.children|
    requires GetComponentStartComment(node.children[i]).Some?
    requires GetComponentStartComment(node.children[i]).value.wellFormed
    requires FindEnd(node.children, GetComponentStartComment(node.children[i]).value.componentId, i + 1).found
    ensures var r := PairsFrom(node, path, i);
            var k := FindEnd(node.children, GetComponentStartComment(node.children[i]).value.componentId, i + 1).index;
            && |r| > 0 && r[0].valid && r[0].at == path + [i] && r[0].end.value.index == k
            && forall p | p in r[1..] :: p.at[|path|] > k
  {
  }

  /** A prerendered component found in the document: the ids of its start
      marker and, as its placeholder, the marker pair. */
  datatype ComponentEntry = ComponentEntry(componentId: Option<int>, circuitId: Json, rendererId: Option<int>,
                                           placeholder: Option<CommentPair>)

  function EntryFor(pair: CommentPair): ComponentEntry {
    ComponentEntry(pair.start.componentId, pair.start.circuitId, pair.start.rendererId, Some(pair))
  }

  /** The entries made from the valid pairs, in the order of the pairs. */
  function ValidEntries(pairs: seq<CommentPair>): (entries: seq<ComponentEntry>)
    ensures |entries| <= |pairs|
    ensures forall e | e in entries ::
              e.placeholder.Some? && e.placeholder.value in pairs && e.placeholder.value.valid
              && e == EntryFor(e.placeholder.value)
    ensures forall p | p in pairs && p.valid :: EntryFor(p) in entries
  {
    if pairs == [] then []
    else
      var last := pairs[|pairs| - 1];
      assert forall p | p in pairs :: p in pairs[..|pairs| - 1] || p == last;
      ValidEntries(pairs[..|pairs| - 1]) + (if last.valid then [EntryFor(last)] else [])
  }

  /** The invalid pairs, in order: the ones handed to the report hook. */
  function InvalidPairs(pairs: seq<CommentPair>): (invalid: seq<CommentPair>)
    ensures forall p | p in invalid :: p in pairs && !p.valid
    ensures forall p | p in pairs && !p.valid :: p in invalid
  {
    if pairs == [] then []
    else
      var last := pairs[|pairs| - 1];
      assert forall p | p in pairs :: p in pairs[..|pairs| - 1] || p == last;
      InvalidPairs(pairs[..|pairs| - 1]) + (if last.valid then [] else [last])
  }

  /** Every pair goes to exactly one side: an entry or a report. */
  lemma {:induction false} EntriesAndReportsPartition(pairs: seq<CommentPair>)
    ensures |ValidEntries(pairs)| + |InvalidPairs(pairs)| == |pairs|
  {
    if pairs != [] {
      EntriesAndReportsPartition(pairs[..|pairs| - 1]);
    }
  }

  /** Entries keep document order: the valid pairs of a concatenation are
      those of each part, one after the other. */
  lemma {:induction false} ValidEntriesAppend(a: seq<CommentPair>, b: seq<CommentPair>)
    ensures ValidEntries(a + b) == ValidEntries(a) + ValidEntries(b)
    decreases |b|
  {
    if b != [] {
      var b' := b[..|b| - 1];
      assert (a + b)[..|a + b| - 1] == a + b';
      ValidEntriesAppend(a, b');
    } else {
      assert a + b == a;
    }
  }

  /** Discovery over the whole document: each valid pair becomes an entry
      carrying its start marker's ids with the pair as its placeholder; each
      invalid pair is reported (the report hook does nothing else). */
  method DiscoverPrerenderedCircuits(document: Node) returns (circuits: seq<ComponentEntry>, reported: seq<CommentPair>)
    ensures circuits == ValidEntries(Pairs(document, []))
    ensures reported == InvalidPairs(Pairs(document, []))
  {
    var commentPairs := ResolveCommentPairs(document, []);
    circuits, reported := [], [];
    for i := 0 to |commentPairs|
      invariant circuits == ValidEntries(commentPairs[..i])
      invariant reported == InvalidPairs(commentPairs[..i])
    {
      assert commentPairs[..i + 1][..i] == commentPairs[..i];
      var pair := commentPairs[i];
      if !pair.valid {
        reported := reported + [pair];
      } else {
        var entry := ComponentEntry(pair.start.componentId, pair.start.circuitId, pair.start.rendererId, None);
        entry := entry.(placeholder := Some(pair));
        circuits := circuits + [entry];
      }
    }
    assert commentPairs[..|commentPairs|] == commentPairs;
  }

  /** Where a component is attached: the element matching the attribute
      selector built from the three ids, or the node range between the two
      markers (the end node absent when no end was found). */
  datatype AttachTarget =
    | BySelector(rendererId: Option<int>, componentId: Option<int>, circuitId: Json)
    | ByRange(rendererId: Option<int>, start: seq<nat>, end: Option<seq<nat>>, componentId: Option<int>)

  /** The path of a pair's end node, when its end was found. */
  function EndPath(pair: CommentPair): Option<seq<nat>> {
    if pair.end.Some? && pair.end.value.found && |pair.at| > 0
    then Some(pair.at[..|pair.at| - 1] + [pair.end.value.index])
    else None
  }

  /** Initialization of an entry: without a placeholder the component goes
      to the element the attribute selector finds, otherwise to the range
      between the placeholder's markers. A placeholder without an end makes
      the source dereference a missing object and throw (`None`). */
  function Initialize(entry: ComponentEntry): (target: Option<AttachTarget>)
    ensures entry.placeholder.None? <==> target.Some? && target.value.BySelector?
    ensures entry.placeholder.None? ==>
              target == Some(BySelector(entry.rendererId, entry.componentId, entry.circuitId))
    ensures entry.placeholder.Some? ==>
              (target.Some? <==> entry.placeholder.value.end.Some?)
    ensures target.Some? && target.value.ByRange? ==>
              && target.value.start == entry.placeholder.value.at
              && target.value.end == EndPath(entry.placeholder.value)
              && target.value.rendererId == entry.rendererId && target.value.componentId == entry.componentId
  {
    match entry.placeholder
      case None => Some(BySelector(entry.rendererId, entry.componentId, entry.circuitId))
      case Some(pair) =>
        if pair.end.None? then None
        else Some(ByRange(entry.rendererId, pair.at, EndPath(pair), entry.componentId))
  }

  /** Every discovered entry is attached to a node range whose end marker
      is a later sibling of its start marker. */
  lemma DiscoveredEntriesAttachToRange(document: Node, entry: ComponentEntry)
    requires entry in ValidEntries(Pairs(document, []))
    ensures var target := Initialize(entry);
            && target.Some? && target.value.ByRange?
            && target.value.end.Some?
            && var start, end := target.value.start, target.value.end.value;
               && |start| == |end| > 0
               && start[..|start| - 1] == end[..|end| - 1]
               && start[|start| - 1] < end[|end| - 1]
  {
    var pair := entry.placeholder.value;
    assert WellShaped(pair);
  }
}
