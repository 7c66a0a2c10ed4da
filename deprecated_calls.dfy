/**
 * The deprecated-call rule of the local analyser (`checkDeprecatedFunctions`
 * and its recursive `walk`), over the parsed program seen as the plain
 * JavaScript object graph the PHP parser returns.
 */
module DeprecatedCalls {
  import opened Wrappers
  import opened Types

  // The AST as JavaScript values.

  /** A JavaScript value as it appears in a parser node; numbers are modelled as integers. */
  datatype JsValue =
    | Undefined
    | Null
    | Bool(b: bool)
    | Num(n: int)
    | Str(s: string)
    | Arr(items: seq<JsValue>)
    | Obj(fields: seq<Field>)

  /** An own enumerable property, in `for…in` order. */
  datatype Field = Field(key: string, value: JsValue)

  /** Property lookup: the value of the first field with the key, `undefined` when the key is absent. */
  function Get(fields: seq<Field>, key: string): (v: JsValue)
    ensures v != Undefined ==> exists i :: 0 <= i < |fields| && fields[i] == Field(key, v)
    ensures (forall i :: 0 <= i < |fields| ==> fields[i].key != key) ==> v == Undefined
    ensures forall i :: 0 <= i < |fields| && fields[i].key == key && (forall j :: 0 <= j < i ==> fields[j].key != key) ==> v == fields[i].value
  {
    if fields == [] then Undefined
    else if fields[0].key == key then fields[0].value
    else
      assert forall i :: 1 <= i < |fields| ==> fields[1..][i - 1] == fields[i];
      Get(fields[1..], key)
  }

  /** JavaScript truthiness. */
  predicate Truthy(v: JsValue)
  {
    match v
    case Undefined => false
    case Null => false
    case Bool(b) => b
    case Num(n) => n != 0
    case Str(s) => s != []
    case Arr(_) => true
    case Obj(_) => true
  }

  /** `node.kind` read on any value; only objects carry properties here. */
  function KindOf(v: JsValue): JsValue
  {
    if v.Obj? then Get(v.fields, "kind") else Undefined
  }

  /** The deprecated function names of `src/data/wordpress.ts`. */
  const WordPressDeprecated: set<string> := {
    "add_contextual_help", "add_option_whitelist", "the_attachment_links",
    "get_the_attachment_links", "get_link", "link_pages", "wp_get_links",
    "wp_get_linksbyname", "wp_list_bookmarks", "get_bookmarks", "wp_get_post_cats",
    "wp_set_post_cats", "is_taxonomy_hierarchical", "is_term", "user_pass_ok",
    "get_user_by_email", "get_user_by_login", "get_users_of_blog", "wp_get_profile",
    "get_profile", "get_others_unpublished_posts", "get_others_drafts",
    "wp_set_post_tags", "wp_get_post_tags", "get_all_category_ids",
    "__ngettext_noop", "like_escape", "wp_specialchars", "register_sidebar_widget",
    "unregister_sidebar_widget", "register_widget_control", "unregister_widget_control"
  }

  // The walk. `None` means the walk threw: reading `what.kind` of a call
  // node whose `what` is undefined or null raises a TypeError, which aborts
  // the whole rule.

  /** Sequencing of two parts of the walk: a throw in either aborts it. */
  function Then(a: Option<seq<string>>, b: Option<seq<string>>): (r: Option<seq<string>>)
    ensures r.Some? <==> a.Some? && b.Some?
    ensures r.Some? ==> r.value == a.value + b.value
  {
    if a.Some? && b.Some? then Some(a.value + b.value) else None
  }

  /** What the node itself reports before its children are visited. */
  function CallReport(node: JsValue, deprecated: set<string>): (r: Option<seq<string>>)
    ensures r.Some? && r.value != [] ==>
      |r.value| == 1 && r.value[0] in deprecated && node.Obj? && KindOf(node) == Str("call")
  {
    if KindOf(node) != Str("call") then Some([])
    else
      var what := Get(node.fields, "what");
      if what == Undefined || what == Null then None
      else if KindOf(what) != Str("name") then Some([])
      else
        var name := Get(what.fields, "name");
        if name.Str? && name.s in deprecated then Some([name.s]) else Some([])
  }

  /** `walk(node)`: the names reported in pre-order, or `None` when it throws. */
  function Walk(node: JsValue, deprecated: set<string>): (r: Option<seq<string>>)
    ensures r.Some? ==> forall i :: 0 <= i < |r.value| ==> r.value[i] in deprecated
    decreases node, 2
  {
    if !Truthy(node) then Some([])
    else Then(CallReport(node, deprecated), Children(node, deprecated))
  }

  /** The `for (const key in node)` loop: own properties of objects, indices of arrays. */
  function Children(node: JsValue, deprecated: set<string>): (r: Option<seq<string>>)
    ensures r.Some? ==> forall i :: 0 <= i < |r.value| ==> r.value[i] in deprecated
    decreases node, 1
  {
    match node
    case Obj(fields) => WalkFields(fields, deprecated)
    case Arr(items) => WalkProperties(items, deprecated)
    case _ => Some([])
  }

  /** The loop body for one property value: arrays are walked element by element, objects only when their `kind` is truthy. */
  function VisitChild(child: JsValue, deprecated: set<string>): (r: Option<seq<string>>)
    ensures r.Some? ==> forall i :: 0 <= i < |r.value| ==> r.value[i] in deprecated
    decreases child, 3
  {
    if child.Arr? then WalkEach(child.items, deprecated)
    else if child.Obj? && Truthy(KindOf(child)) then Walk(child, deprecated)
    else Some([])
  }

  function WalkFields(fields: seq<Field>, deprecated: set<string>): (r: Option<seq<string>>)
    ensures r.Some? ==> forall i :: 0 <= i < |r.value| ==> r.value[i] in deprecated
    decreases fields, 0
  {
    if fields == [] then Some([])
    else Then(VisitChild(fields[0].value, deprecated), WalkFields(fields[1..], deprecated))
  }

  /** The properties of an array node are its elements, each visited like any property. */
  function WalkProperties(items: seq<JsValue>, deprecated: set<string>): (r: Option<seq<string>>)
    ensures r.Some? ==> forall i :: 0 <= i < |r.value| ==> r.value[i] in deprecated
    decreases items, 0
  {
    if items == [] then Some([])
    else Then(VisitChild(items[0], deprecated), WalkProperties(items[1..], deprecated))
  }

  /** `child.forEach(walk)`: every element is walked, whatever its kind. */
  function WalkEach(items: seq<JsValue>, deprecated: set<string>): (r: Option<seq<string>>)
    ensures r.Some? ==> forall i :: 0 <= i < |r.value| ==> r.value[i] in deprecated
    decreases items, 0
  {
    if items == [] then Some([])
    else Then(Walk(items[0], deprecated), WalkEach(items[1..], deprecated))
  }

  // Properties of the walk.

  lemma ThenAssociative(x: Option<seq<string>>, y: Option<seq<string>>, z: Option<seq<string>>)
    ensures Then(x, Then(y, z)) == Then(Then(x, y), z)
  {
    if x.Some? && y.Some? && z.Some? {
      assert x.value + (y.value + z.value) == (x.value + y.value) + z.value;
    }
  }

  /** The children of an object are visited in property order: the walk over a concatenation is the walk over each part. */
  lemma {:induction false} WalkFieldsAppend(a: seq<Field>, b: seq<Field>, deprecated: set<string>)
    ensures WalkFields(a + b, deprecated) == Then(WalkFields(a, deprecated), WalkFields(b, deprecated))
  {
    if a == [] {
      assert a + b == b;
      var w := WalkFields(b, deprecated);
      if w.Some? {
        assert [] + w.value == w.value;
      }
    } else {
      assert (a + b)[0] == a[0] && (a + b)[1..] == a[1..] + b;
      WalkFieldsAppend(a[1..], b, deprecated);
      ThenAssociative(VisitChild(a[0].value, deprecated), WalkFields(a[1..], deprecated), WalkFields(b, deprecated));
    }
  }

  lemma {:induction false} WalkPropertiesAppend(a: seq<JsValue>, b: seq<JsValue>, deprecated: set<string>)
    ensures WalkProperties(a + b, deprecated) == Then(WalkProperties(a, deprecated), WalkProperties(b, deprecated))
  {
    if a == [] {
      assert a + b == b;
      var w := WalkProperties(b, deprecated);
      if w.Some? {
        assert [] + w.value == w.value;
      }
    } else {
      assert (a + b)[0] == a[0] && (a + b)[1..] == a[1..] + b;
      WalkPropertiesAppend(a[1..], b, deprecated);
      ThenAssociative(VisitChild(a[0], deprecated), WalkProperties(a[1..], deprecated), WalkProperties(b, deprecated));
    }
  }

  lemma {:induction false} WalkEachAppend(a: seq<JsValue>, b: seq<JsValue>, deprecated: set<string>)
    ensures WalkEach(a + b, deprecated) == Then(WalkEach(a, deprecated), WalkEach(b, deprecated))
  {
    if a == [] {
      assert a + b == b;
      var w := WalkEach(b, deprecated);
      if w.Some? {
        assert [] + w.value == w.value;
      }
    } else {
      assert (a + b)[0] == a[0] && (a + b)[1..] == a[1..] + b;
      WalkEachAppend(a[1..], b, deprecated);
      ThenAssociative(Walk(a[0], deprecated), WalkEach(a[1..], deprecated), WalkEach(b, deprecated));
    }
  }

  /** A property holding an object without a truthy `kind` is not descended into. */
  lemma KindlessPropertySkipped(fields: seq<Field>, key: string, child: JsValue, deprecated: set<string>)
    requires child.Obj? && !Truthy(KindOf(child))
    ensures WalkFields(fields + [Field(key, child)], deprecated) == WalkFields(fields, deprecated)
  {
    WalkFieldsAppend(fields, [Field(key, child)], deprecated);
    assert WalkFields([Field(key, child)], deprecated) == Some([]);
    var w := WalkFields(fields, deprecated);
    if w.Some? {
      assert w.value + [] == w.value;
    }
  }

  /** Every element of an array property is walked, whatever its kind; one element that throws aborts the rule. */
  lemma {:induction false} ThrowingElementAborts(items: seq<JsValue>, i: nat, deprecated: set<string>)
    requires i < |items| && Walk(items[i], deprecated).None?
    ensures WalkEach(items, deprecated).None?
  {
    if i > 0 {
      ThrowingElementAborts(items[1..], i - 1, deprecated);
    }
  }

  /** A call to a deprecated plain name is reported before anything found inside it (pre-order). */
  lemma DeprecatedCallReportedFirst(node: JsValue, deprecated: set<string>)
    requires node.Obj? && KindOf(node) == Str("call")
    requires KindOf(Get(node.fields, "what")) == Str("name")
    requires Get(Get(node.fields, "what").fields, "name").Str?
    requires Get(Get(node.fields, "what").fields, "name").s in deprecated
    requires Walk(node, deprecated).Some?
    ensures |Walk(node, deprecated).value| >= 1
    ensures Walk(node, deprecated).value[0] == Get(Get(node.fields, "what").fields, "name").s
  {
  }

  /** A call whose callee is not a plain name (a variable, a method or property lookup) reports nothing itself. */
  lemma IndirectCallNotReported(node: JsValue, deprecated: set<string>)
    requires node.Obj? && KindOf(node) == Str("call")
    requires Truthy(Get(node.fields, "what")) && KindOf(Get(node.fields, "what")) != Str("name")
    ensures Walk(node, deprecated) == Children(node, deprecated)
  {
    var c := Children(node, deprecated);
    if c.Some? {
      assert [] + c.value == c.value;
    }
  }

  /** A call node without a callee makes `callNode.what.kind` throw. */
  lemma MissingCalleeThrows(fields: seq<Field>, deprecated: set<string>)
    requires Get(fields, "kind") == Str("call") && Get(fields, "what") in {Undefined, Null}
    ensures Walk(Obj(fields), deprecated).None?
  {
  }

  // Which calls the walk reports, against the traversal as a relation.

  /** `c` is a call node whose callee is the plain name `f`, one of the deprecated functions. */
  predicate DeprecatedCallOf(c: JsValue, f: string, deprecated: set<string>)
  {
    c.Obj? && KindOf(c) == Str("call")
    && Get(c.fields, "what").Obj? && KindOf(Get(c.fields, "what")) == Str("name")
    && Get(Get(c.fields, "what").fields, "name") == Str(f) && f in deprecated
  }

  /** `walk` reaches `c` from `node`: `node` is truthy and is `c` itself, or one of its properties leads to `c`. */
  ghost predicate Visits(node: JsValue, c: JsValue)
    decreases node, 2
  {
    Truthy(node) && (c == node || VisitsBelow(node, c))
  }

  /** One of the properties of `node` (fields of an object, elements of an array) leads to `c`. */
  ghost predicate VisitsBelow(node: JsValue, c: JsValue)
    decreases node, 1
  {
    match node
    case Obj(fields) => exists i :: 0 <= i < |fields| && VisitsChild(fields[i].value, c)
    case Arr(items) => exists i :: 0 <= i < |items| && VisitsChild(items[i], c)
    case _ => false
  }

  /** A property value leads to `c`: through any element of an array, or through an object whose `kind` is truthy. */
  ghost predicate VisitsChild(child: JsValue, c: JsValue)
    decreases child, 3
  {
    if child.Arr? then exists i :: 0 <= i < |child.items| && Visits(child.items[i], c)
    else child.Obj? && Truthy(KindOf(child)) && Visits(child, c)
  }

  /** The node's own report names exactly the function of a deprecated call. */
  lemma CallReportNamesTheCall(node: JsValue, f: string, deprecated: set<string>)
    requires CallReport(node, deprecated).Some?
    ensures f in CallReport(node, deprecated).value <==> DeprecatedCallOf(node, f, deprecated)
  {
  }

  lemma {:induction false} FieldsInclude(fields: seq<Field>, i: nat, deprecated: set<string>)
    requires i < |fields| && WalkFields(fields, deprecated).Some?
    ensures VisitChild(fields[i].value, deprecated).Some?
    ensures forall f :: f in VisitChild(fields[i].value, deprecated).value ==> f in WalkFields(fields, deprecated).value
  {
    if i > 0 {
      FieldsInclude(fields[1..], i - 1, deprecated);
      assert fields[1..][i - 1] == fields[i];
    }
  }

  lemma {:induction false} PropertiesInclude(items: seq<JsValue>, i: nat, deprecated: set<string>)
    requires i < |items| && WalkProperties(items, deprecated).Some?
    ensures VisitChild(items[i], deprecated).Some?
    ensures forall f :: f in VisitChild(items[i], deprecated).value ==> f in WalkProperties(items, deprecated).value
  {
    if i > 0 {
      PropertiesInclude(items[1..], i - 1, deprecated);
      assert items[1..][i - 1] == items[i];
    }
  }

  lemma {:induction false} EachIncludes(items: seq<JsValue>, i: nat, deprecated: set<string>)
    requires i < |items| && WalkEach(items, deprecated).Some?
    ensures Walk(items[i], deprecated).Some?
    ensures forall f :: f in Walk(items[i], deprecated).value ==> f in WalkEach(items, deprecated).value
  {
    if i > 0 {
      EachIncludes(items[1..], i - 1, deprecated);
      assert items[1..][i - 1] == items[i];
    }
  }

  lemma {:induction false} FieldsMember(fields: seq<Field>, f: string, deprecated: set<string>)
    requires WalkFields(fields, deprecated).Some? && f in WalkFields(fields, deprecated).value
    ensures exists i :: 0 <= i < |fields| && VisitChild(fields[i].value, deprecated).Some? && f in VisitChild(fields[i].value, deprecated).value
  {
    if f !in VisitChild(fields[0].value, deprecated).value {
      FieldsMember(fields[1..], f, deprecated);
      var i :| 0 <= i < |fields[1..]| && VisitChild(fields[1..][i].value, deprecated).Some? && f in VisitChild(fields[1..][i].value, deprecated).value;
      assert fields[1..][i] == fields[i + 1];
    }
  }

  lemma {:induction false} PropertiesMember(items: seq<JsValue>, f: string, deprecated: set<string>)
    requires WalkProperties(items, deprecated).Some? && f in WalkProperties(items, deprecated).value
    ensures exists i :: 0 <= i < |items| && VisitChild(items[i], deprecated).Some? && f in VisitChild(items[i], deprecated).value
  {
    if f !in VisitChild(items[0], deprecated).value {
      PropertiesMember(items[1..], f, deprecated);
      var i :| 0 <= i < |items[1..]| && VisitChild(items[1..][i], deprecated).Some? && f in VisitChild(items[1..][i], deprecated).value;
      assert items[1..][i] == items[i + 1];
    }
  }

  lemma {:induction false} EachMember(items: seq<JsValue>, f: string, deprecated: set<string>)
    requires WalkEach(items, deprecated).Some? && f in WalkEach(items, deprecated).value
    ensures exists i :: 0 <= i < |items| && Walk(items[i], deprecated).Some? && f in Walk(items[i], deprecated).value
  {
    if f !in Walk(items[0], deprecated).value {
      EachMember(items[1..], f, deprecated);
      var i :| 0 <= i < |items[1..]| && Walk(items[1..][i], deprecated).Some? && f in Walk(items[1..][i], deprecated).value;
      assert items[1..][i] == items[i + 1];
    }
  }

  /** Completeness: when the walk does not throw, every deprecated call it reaches is reported. */
  lemma {:induction false} WalkComplete(node: JsValue, c: JsValue, f: string, deprecated: set<string>)
    requires Walk(node, deprecated).Some? && Visits(node, c) && DeprecatedCallOf(c, f, deprecated)
    ensures f in Walk(node, deprecated).value
    decreases node, 2
  {
    if c == node {
      CallReportNamesTheCall(node, f, deprecated);
    } else {
      ChildrenComplete(node, c, f, deprecated);
    }
  }

  lemma {:induction false} ChildrenComplete(node: JsValue, c: JsValue, f: string, deprecated: set<string>)
    requires Children(node, deprecated).Some? && VisitsBelow(node, c) && DeprecatedCallOf(c, f, deprecated)
    ensures f in Children(node, deprecated).value
    decreases node, 1
  {
    match node
    case Obj(fields) =>
      var i :| 0 <= i < |fields| && VisitsChild(fields[i].value, c);
      FieldsInclude(fields, i, deprecated);
      assert fields[i] in fields;
      ChildComplete(fields[i].value, c, f, deprecated);
    case Arr(items) =>
      var i :| 0 <= i < |items| && VisitsChild(items[i], c);
      PropertiesInclude(items, i, deprecated);
      ChildComplete(items[i], c, f, deprecated);
  }

  lemma {:induction false} ChildComplete(child: JsValue, c: JsValue, f: string, deprecated: set<string>)
    requires VisitChild(child, deprecated).Some? && VisitsChild(child, c) && DeprecatedCallOf(c, f, deprecated)
    ensures f in VisitChild(child, deprecated).value
    decreases child, 3
  {
    if child.Arr? {
      var i :| 0 <= i < |child.items| && Visits(child.items[i], c);
      EachIncludes(child.items, i, deprecated);
      WalkComplete(child.items[i], c, f, deprecated);
    } else {
      WalkComplete(child, c, f, deprecated);
    }
  }

  /** Soundness: every reported name is the callee of a deprecated call the walk reaches. */
  lemma {:induction false} WalkSound(node: JsValue, f: string, deprecated: set<string>)
    requires Walk(node, deprecated).Some? && f in Walk(node, deprecated).value
    ensures exists c :: Visits(node, c) && DeprecatedCallOf(c, f, deprecated)
    decreases node, 2
  {
    if f in CallReport(node, deprecated).value {
      CallReportNamesTheCall(node, f, deprecated);
      assert Visits(node, node);
    } else {
      ChildrenSound(node, f, deprecated);
      var c :| VisitsBelow(node, c) && DeprecatedCallOf(c, f, deprecated);
      assert Visits(node, c);
    }
  }

  lemma {:induction false} ChildrenSound(node: JsValue, f: string, deprecated: set<string>)
    requires Children(node, deprecated).Some? && f in Children(node, deprecated).value
    ensures exists c :: VisitsBelow(node, c) && DeprecatedCallOf(c, f, deprecated)
    decreases node, 1
  {
    match node
    case Obj(fields) =>
      FieldsMember(fields, f, deprecated);
      var i :| 0 <= i < |fields| && VisitChild(fields[i].value, deprecated).Some? && f in VisitChild(fields[i].value, deprecated).value;
      assert fields[i] in fields;
      ChildSound(fields[i].value, f, deprecated);
      var c :| VisitsChild(fields[i].value, c) && DeprecatedCallOf(c, f, deprecated);
      assert VisitsBelow(node, c);
    case Arr(items) =>
      PropertiesMember(items, f, deprecated);
      var i :| 0 <= i < |items| && VisitChild(items[i], deprecated).Some? && f in VisitChild(items[i], deprecated).value;
      ChildSound(items[i], f, deprecated);
      var c :| VisitsChild(items[i], c) && DeprecatedCallOf(c, f, deprecated);
      assert VisitsBelow(node, c);
  }

  lemma {:induction false} ChildSound(child: JsValue, f: string, deprecated: set<string>)
    requires VisitChild(child, deprecated).Some? && f in VisitChild(child, deprecated).value
    ensures exists c :: VisitsChild(child, c) && DeprecatedCallOf(c, f, deprecated)
    decreases child, 3
  {
    if child.Arr? {
      EachMember(child.items, f, deprecated);
      var i :| 0 <= i < |child.items| && Walk(child.items[i], deprecated).Some? && f in Walk(child.items[i], deprecated).value;
      WalkSound(child.items[i], f, deprecated);
      var c :| Visits(child.items[i], c) && DeprecatedCallOf(c, f, deprecated);
      assert VisitsChild(child, c);
    } else {
      WalkSound(child, f, deprecated);
    }
  }

  /** The names `walk` reports are exactly the callees of the deprecated calls it reaches. */
  lemma WalkFindsTheDeprecatedCalls(ast: JsValue, f: string, deprecated: set<string>)
    requires Walk(ast, deprecated).Some?
    ensures f in Walk(ast, deprecated).value <==> exists c :: Visits(ast, c) && DeprecatedCallOf(c, f, deprecated)
  {
    if f in Walk(ast, deprecated).value {
      WalkSound(ast, f, deprecated);
    }
    if exists c :: Visits(ast, c) && DeprecatedCallOf(c, f, deprecated) {
      var c :| Visits(ast, c) && DeprecatedCallOf(c, f, deprecated);
      WalkComplete(ast, c, f, deprecated);
    }
  }

  // Issues.

  const DeprecatedImpact: string := "Using outdated functions can lead to bugs or break your site in future WordPress versions."
  const DeprecatedSuggestionTail: string := "() with its modern equivalent. Check the official WordPress developer documentation for the recommended alternative."

  /** The issue pushed for a call to the deprecated function `functionName`. */
  function DeprecatedIssue(pluginName: string, fileName: string, functionName: string): ReviewIssue
  {
    ReviewIssue(
      pluginName, fileName, BestPractices, Warning,
      "Usage of deprecated WordPress function: " + functionName + "()",
      DeprecatedImpact,
      "Replace " + functionName + DeprecatedSuggestionTail,
      LocalScanner)
  }

  function DeprecatedIssues(pluginName: string, fileName: string, names: seq<string>): (r: seq<ReviewIssue>)
  {
    seq(|names|, i requires 0 <= i < |names| => DeprecatedIssue(pluginName, fileName, names[i]))
  }

  lemma DeprecatedIssuesAppend(pluginName: string, fileName: string, a: seq<string>, b: seq<string>)
    ensures DeprecatedIssues(pluginName, fileName, a + b)
         == DeprecatedIssues(pluginName, fileName, a) + DeprecatedIssues(pluginName, fileName, b)
  {
  }

  /** What `checkDeprecatedFunctions(ast, …)` returns, or `None` when it throws. */
  function DeprecatedFunctionIssues(ast: JsValue, fileName: string, pluginName: string, deprecated: set<string>): Option<seq<ReviewIssue>>
  {
    match Walk(ast, deprecated)
    case None => None
    case Some(names) => Some(DeprecatedIssues(pluginName, fileName, names))
  }

  /** Every issue of the rule is a Best Practices warning of the local scanner naming a deprecated function. */
  lemma DeprecatedIssuesAreWarnings(ast: JsValue, fileName: string, pluginName: string, deprecated: set<string>)
    requires DeprecatedFunctionIssues(ast, fileName, pluginName, deprecated).Some?
    ensures forall issue <- DeprecatedFunctionIssues(ast, fileName, pluginName, deprecated).value ::
      issue.category == BestPractices && issue.severity == Warning && issue.source == LocalScanner
      && issue.pluginName == pluginName && issue.fileName == fileName
      && exists name <- deprecated :: issue == DeprecatedIssue(pluginName, fileName, name)
  {
    var names := Walk(ast, deprecated).value;
    forall issue <- DeprecatedFunctionIssues(ast, fileName, pluginName, deprecated).value
      ensures exists name <- deprecated :: issue == DeprecatedIssue(pluginName, fileName, name)
    {
      var i :| 0 <= i < |names| && issue == DeprecatedIssue(pluginName, fileName, names[i]);
      assert names[i] in deprecated;
    }
  }

  // The walk as the source writes it: a recursive traversal appending to
  // the rule's issue list, threaded through as `issues`.

  /** The issue list after `done` and then `next` were reported is the list for `done + next`. */
  lemma IssuesExtend(pluginName: string, fileName: string, issues: seq<ReviewIssue>, done: seq<string>, next: seq<string>,
                     before: seq<ReviewIssue>, after: seq<ReviewIssue>)
    requires before == issues + DeprecatedIssues(pluginName, fileName, done)
    requires after == before + DeprecatedIssues(pluginName, fileName, next)
    ensures after == issues + DeprecatedIssues(pluginName, fileName, done + next)
  {
    DeprecatedIssuesAppend(pluginName, fileName, done, next);
  }

  /** One more property of an object: its visit is sequenced after the earlier ones, and a throw aborts the whole loop. */
  lemma WalkFieldsStep(fields: seq<Field>, i: nat, deprecated: set<string>)
    requires i < |fields|
    ensures WalkFields(fields[..i + 1], deprecated) == Then(WalkFields(fields[..i], deprecated), VisitChild(fields[i].value, deprecated))
    ensures VisitChild(fields[i].value, deprecated).None? ==> WalkFields(fields, deprecated).None?
  {
    var v := VisitChild(fields[i].value, deprecated);
    WalkFieldsAppend(fields[..i], [fields[i]], deprecated);
    assert fields[..i + 1] == fields[..i] + [fields[i]];
    assert [fields[i]][1..] == [];
    if v.Some? {
      assert v.value + [] == v.value;
    }
    WalkFieldsAppend(fields[..i], fields[i..], deprecated);
    assert fields[..i] + fields[i..] == fields;
  }

  /** The same for the elements of an array node. */
  lemma WalkPropertiesStep(items: seq<JsValue>, i: nat, deprecated: set<string>)
    requires i < |items|
    ensures WalkProperties(items[..i + 1], deprecated) == Then(WalkProperties(items[..i], deprecated), VisitChild(items[i], deprecated))
    ensures VisitChild(items[i], deprecated).None? ==> WalkProperties(items, deprecated).None?
  {
    var v := VisitChild(items[i], deprecated);
    WalkPropertiesAppend(items[..i], [items[i]], deprecated);
    assert items[..i + 1] == items[..i] + [items[i]];
    assert [items[i]][1..] == [];
    if v.Some? {
      assert v.value + [] == v.value;
    }
    WalkPropertiesAppend(items[..i], items[i..], deprecated);
    assert items[..i] + items[i..] == items;
  }

  /** The same for `child.forEach(walk)`. */
  lemma WalkEachStep(items: seq<JsValue>, i: nat, deprecated: set<string>)
    requires i < |items|
    ensures WalkEach(items[..i + 1], deprecated) == Then(WalkEach(items[..i], deprecated), Walk(items[i], deprecated))
    ensures Walk(items[i], deprecated).None? ==> WalkEach(items, deprecated).None?
  {
    var v := Walk(items[i], deprecated);
    WalkEachAppend(items[..i], [items[i]], deprecated);
    assert items[..i + 1] == items[..i] + [items[i]];
    assert [items[i]][1..] == [];
    if v.Some? {
      assert v.value + [] == v.value;
    }
    WalkEachAppend(items[..i], items[i..], deprecated);
    assert items[..i] + items[i..] == items;
  }

  /** `walk(node)`: appends the node's own issue, then visits its properties in order. */
  method WalkNode(node: JsValue, deprecated: set<string>, pluginName: string, fileName: string, issues: seq<ReviewIssue>)
    returns (out: seq<ReviewIssue>, threw: bool)
    ensures threw <==> Walk(node, deprecated).None?
    ensures !threw ==> out == issues + DeprecatedIssues(pluginName, fileName, Walk(node, deprecated).value)
    decreases node, 2
  {
    out, threw := issues, false;
    if !Truthy(node) {
      assert issues + [] == issues;
      return;
    }
    out, threw := ReportCall(node, deprecated, pluginName, fileName, issues);
    if threw {
      return;
    }
    ghost var afterHead := out;
    out, threw := WalkPropertiesOf(node, deprecated, pluginName, fileName, out);
    if !threw {
      IssuesExtend(pluginName, fileName, issues, CallReport(node, deprecated).value, Children(node, deprecated).value, afterHead, out);
    }
  }

  /** The `if (node.kind === 'call')` block of `walk`: pushes the issue for a call to a deprecated plain name. */
  method ReportCall(node: JsValue, deprecated: set<string>, pluginName: string, fileName: string, issues: seq<ReviewIssue>)
    returns (out: seq<ReviewIssue>, threw: bool)
    ensures threw <==> CallReport(node, deprecated).None?
    ensures !threw ==> out == issues + DeprecatedIssues(pluginName, fileName, CallReport(node, deprecated).value)
  {
    out, threw := issues, false;
    if KindOf(node) == Str("call") {
      var what := Get(node.fields, "what");
      if what == Undefined || what == Null {
        threw := true;
        return;
      }
      if KindOf(what) == Str("name") {
        var functionName := Get(what.fields, "name");
        if functionName.Str? && functionName.s in deprecated {
          out := out + [DeprecatedIssue(pluginName, fileName, functionName.s)];
        }
      }
    }
    assert out == issues + DeprecatedIssues(pluginName, fileName, CallReport(node, deprecated).value);
  }

  /** The `for (const key in node)` loop of `walk`. */
  method WalkPropertiesOf(node: JsValue, deprecated: set<string>, pluginName: string, fileName: string, issues: seq<ReviewIssue>)
    returns (out: seq<ReviewIssue>, threw: bool)
    ensures threw <==> Children(node, deprecated).None?
    ensures !threw ==> out == issues + DeprecatedIssues(pluginName, fileName, Children(node, deprecated).value)
    decreases node, 1
  {
    out, threw := issues, false;
    match node
    case Obj(fields) =>
      for i := 0 to |fields|
        invariant WalkFields(fields[..i], deprecated).Some?
        invariant out == issues + DeprecatedIssues(pluginName, fileName, WalkFields(fields[..i], deprecated).value)
      {
        WalkFieldsStep(fields, i, deprecated);
        ghost var before := out;
        out, threw := VisitProperty(fields[i].value, deprecated, pluginName, fileName, out);
        if threw {
          return;
        }
        IssuesExtend(pluginName, fileName, issues, WalkFields(fields[..i], deprecated).value,
          VisitChild(fields[i].value, deprecated).value, before, out);
      }
      assert fields[..|fields|] == fields;
    case Arr(items) =>
      for i := 0 to |items|
        invariant WalkProperties(items[..i], deprecated).Some?
        invariant out == issues + DeprecatedIssues(pluginName, fileName, WalkProperties(items[..i], deprecated).value)
      {
        WalkPropertiesStep(items, i, deprecated);
        ghost var before := out;
        out, threw := VisitProperty(items[i], deprecated, pluginName, fileName, out);
        if threw {
          return;
        }
        IssuesExtend(pluginName, fileName, issues, WalkProperties(items[..i], deprecated).value,
          VisitChild(items[i], deprecated).value, before, out);
      }
      assert items[..|items|] == items;
    case _ =>
      assert issues + [] == issues;
  }

  /** One property value: an array is walked element by element (`child.forEach(walk)`), an object with a truthy `kind` is walked. */
  method VisitProperty(child: JsValue, deprecated: set<string>, pluginName: string, fileName: string, issues: seq<ReviewIssue>)
    returns (out: seq<ReviewIssue>, threw: bool)
    ensures threw <==> VisitChild(child, deprecated).None?
    ensures !threw ==> out == issues + DeprecatedIssues(pluginName, fileName, VisitChild(child, deprecated).value)
    decreases child, 3
  {
    out, threw := issues, false;
    if child.Arr? {
      var items := child.items;
      for j := 0 to |items|
        invariant WalkEach(items[..j], deprecated).Some?
        invariant out == issues + DeprecatedIssues(pluginName, fileName, WalkEach(items[..j], deprecated).value)
      {
        WalkEachStep(items, j, deprecated);
        ghost var before := out;
        out, threw := WalkNode(items[j], deprecated, pluginName, fileName, out);
        if threw {
          return;
        }
        IssuesExtend(pluginName, fileName, issues, WalkEach(items[..j], deprecated).value,
          Walk(items[j], deprecated).value, before, out);
      }
      assert items[..|items|] == items;
    } else if child.Obj? && Truthy(KindOf(child)) {
      out, threw := WalkNode(child, deprecated, pluginName, fileName, issues);
    } else {
      assert issues + [] == issues;
    }
  }

  /** `checkDeprecatedFunctions(ast, fileName, pluginName)`: `None` when the walk throws. */
  method CheckDeprecatedFunctions(ast: JsValue, fileName: string, pluginName: string, deprecated: set<string>)
    returns (issues: Option<seq<ReviewIssue>>)
    ensures issues == DeprecatedFunctionIssues(ast, fileName, pluginName, deprecated)
  {
    var found, threw := WalkNode(ast, deprecated, pluginName, fileName, []);
    if !threw {
      assert [] + DeprecatedIssues(pluginName, fileName, Walk(ast, deprecated).value)
          == DeprecatedIssues(pluginName, fileName, Walk(ast, deprecated).value);
    }
    if threw {
      issues := None;
    } else {
      issues := Some(found);
    }
  }

  /** A node that is not a call contributes only what its properties contribute. */
  lemma NonCallNode(fields: seq<Field>, deprecated: set<string>)
    requires Get(fields, "kind") != Str("call")
    ensures Walk(Obj(fields), deprecated) == WalkFields(fields, deprecated)
  {
    var w := WalkFields(fields, deprecated);
    if w.Some? {
      assert [] + w.value == w.value;
    }
  }

  /** Properties holding strings or empty arrays contribute nothing. */
  lemma InertProperty(f: Field, rest: seq<Field>, deprecated: set<string>)
    requires f.value.Str? || f.value == Arr([])
    ensures WalkFields([f] + rest, deprecated) == WalkFields(rest, deprecated)
  {
    assert ([f] + rest)[1..] == rest;
    assert VisitChild(f.value, deprecated) == Some([]);
    var w := WalkFields(rest, deprecated);
    if w.Some? {
      assert [] + w.value == w.value;
    }
  }

  /** A property holding a kinded object contributes that object's walk. */
  lemma NodeProperty(f: Field, deprecated: set<string>)
    requires f.value.Obj? && Truthy(KindOf(f.value)) && Walk(f.value, deprecated).Some?
    ensures WalkFields([f], deprecated) == Walk(f.value, deprecated)
  {
    assert [f][1..] == [];
    assert Walk(f.value, deprecated).value + [] == Walk(f.value, deprecated).value;
  }

  /** The callee node `add_option_whitelist` itself: a name node, holding only strings. */
  lemma ExampleCallee(what: JsValue, d: set<string>)
    requires what == Obj([Field("kind", Str("name")), Field("name", Str("add_option_whitelist")), Field("resolution", Str("uqn"))])
    ensures Walk(what, d) == Some([])
  {
    var fs := what.fields;
    NonCallNode(fs, d);
    InertProperty(fs[2], [], d);
    assert [fs[2]] + [] == fs[2..];
    InertProperty(fs[1], fs[2..], d);
    assert [fs[1]] + fs[2..] == fs[1..];
    InertProperty(fs[0], fs[1..], d);
    assert [fs[0]] + fs[1..] == fs;
  }

  /** The call node of `add_option_whitelist()` reports its own name. */
  lemma ExampleCallReport(call: JsValue, d: set<string>)
    requires call == Obj([Field("kind", Str("call")),
      Field("what", Obj([Field("kind", Str("name")), Field("name", Str("add_option_whitelist")), Field("resolution", Str("uqn"))])),
      Field("arguments", Arr([]))])
    requires "add_option_whitelist" in d
    ensures CallReport(call, d) == Some(["add_option_whitelist"])
  {
    var what := call.fields[1].value;
    assert Get(call.fields, "what") == what;
    assert KindOf(what) == Str("name");
  }

  /** Nothing below that call node is reported. */
  lemma ExampleCallChildren(call: JsValue, d: set<string>)
    requires call == Obj([Field("kind", Str("call")),
      Field("what", Obj([Field("kind", Str("name")), Field("name", Str("add_option_whitelist")), Field("resolution", Str("uqn"))])),
      Field("arguments", Arr([]))])
    ensures Children(call, d) == Some([])
  {
    var fs := call.fields;
    ExampleCallee(fs[1].value, d);
    InertProperty(fs[2], [], d);
    assert [fs[2]] + [] == fs[2..];
    assert fs[1..][1..] == fs[2..];
    assert VisitChild(fs[1].value, d) == Some([]);
    assert WalkFields(fs[1..], d) == Some([] + []);
    InertProperty(fs[0], fs[1..], d);
    assert [fs[0]] + fs[1..] == fs;
  }

  lemma ExampleCall(call: JsValue, d: set<string>)
    requires call == Obj([Field("kind", Str("call")),
      Field("what", Obj([Field("kind", Str("name")), Field("name", Str("add_option_whitelist")), Field("resolution", Str("uqn"))])),
      Field("arguments", Arr([]))])
    requires "add_option_whitelist" in d
    ensures Walk(call, d) == Some(["add_option_whitelist"])
  {
    ExampleCallReport(call, d);
    ExampleCallChildren(call, d);
    assert ["add_option_whitelist"] + [] == ["add_option_whitelist"];
  }

  /** The expression statement around that call reports what the call reports. */
  lemma ExampleStatement(statement: JsValue, call: JsValue, d: set<string>)
    requires statement == Obj([Field("kind", Str("expressionstatement")), Field("expression", call)])
    requires call.Obj? && Truthy(KindOf(call)) && Walk(call, d) == Some(["add_option_whitelist"])
    ensures Walk(statement, d) == Some(["add_option_whitelist"])
  {
    var fs := statement.fields;
    NonCallNode(fs, d);
    NodeProperty(fs[1], d);
    assert [fs[1]] == fs[1..];
    InertProperty(fs[0], fs[1..], d);
    assert [fs[0]] + fs[1..] == fs;
  }

  /** A property holding a one-element array contributes that element's walk. */
  lemma SingletonArrayProperty(f: Field, element: JsValue, deprecated: set<string>)
    requires f.value == Arr([element]) && Walk(element, deprecated).Some?
    ensures WalkFields([f], deprecated) == Walk(element, deprecated)
  {
    var names := Walk(element, deprecated).value;
    assert [element][1..] == [] && [f][1..] == [];
    assert WalkEach([element], deprecated) == Some(names + []);
    assert names + [] == names;
  }

  /** A program node holding one statement reports what the statement reports. */
  lemma ExampleProgram(program: JsValue, statement: JsValue, d: set<string>, names: seq<string>)
    requires program == Obj([Field("kind", Str("program")), Field("children", Arr([statement])),
      Field("errors", Arr([])), Field("comments", Arr([]))])
    requires Walk(statement, d) == Some(names)
    ensures Walk(program, d) == Some(names)
  {
    var fs := program.fields;
    NonCallNode(fs, d);
    ProgramFields(fs[0], fs[1], fs[2], fs[3], statement, d);
    assert [fs[0], fs[1], fs[2], fs[3]] == fs;
  }

  /** The four properties of that program node: only the statement list contributes. */
  lemma ProgramFields(kind: Field, children: Field, errors: Field, comments: Field, statement: JsValue, d: set<string>)
    requires kind.value.Str? && children.value == Arr([statement]) && errors.value == Arr([]) && comments.value == Arr([])
    requires Walk(statement, d).Some?
    ensures WalkFields([kind, children, errors, comments], d) == Walk(statement, d)
  {
    var names := Walk(statement, d).value;
    InertProperty(comments, [], d);
    assert [comments] + [] == [comments];
    InertProperty(errors, [comments], d);
    SingletonArrayProperty(children, statement, d);
    WalkFieldsAppend([children], [errors, comments], d);
    assert names + [] == names;
    InertProperty(kind, [children, errors, comments], d);
  }

  /** The program `<?php add_option_whitelist();` as the parser returns it yields one deprecated-call issue. */
  lemma AddOptionWhitelistExample(program: JsValue, statement: JsValue, call: JsValue)
    requires call == Obj([Field("kind", Str("call")),
      Field("what", Obj([Field("kind", Str("name")), Field("name", Str("add_option_whitelist")), Field("resolution", Str("uqn"))])),
      Field("arguments", Arr([]))])
    requires statement == Obj([Field("kind", Str("expressionstatement")), Field("expression", call)])
    requires program == Obj([Field("kind", Str("program")), Field("children", Arr([statement])),
      Field("errors", Arr([])), Field("comments", Arr([]))])
    ensures Walk(program, WordPressDeprecated) == Some(["add_option_whitelist"])
  {
    assert "add_option_whitelist" in WordPressDeprecated;
    ExampleCall(call, WordPressDeprecated);
    ExampleStatement(statement, call, WordPressDeprecated);
    ExampleProgram(program, statement, WordPressDeprecated, ["add_option_whitelist"]);
  }
}
