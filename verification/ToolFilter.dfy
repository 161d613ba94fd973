/**
 List filtering (api/app/auth/tool_filter.py): what a subject sees of an upstream's
 tools, resources, prompts or roots.
 */
module ToolFilter {
  import opened Wrappers
  import opened Subjects
  import opened Patterns
  import opened Ranking
  import opened Permissions
  import opened RbacRepositories

  datatype Json =
    | Null
    | Bool(b: bool)
    | Number(n: real)
    | Str(s: string)
    | Arr(items: seq<Json>)
    | Obj(fields: map<string, Json>)

  /** Whether a call naming this resource would be allowed. None is the exception of the glob
      matcher on a name that is not a string. */
  function CallAllowed(glob: Glob, server: string, name: Json, rules: seq<Rule>): Option<bool> {
    match name
    case Str(s) => Some(Evaluate(glob, server, s, rules).allowed)
    case _ => if exists rule :: rule in rules && glob(server, rule.serverPattern) then None else Some(false)
  }

  /** The test `name_key in item`; None for values without membership. */
  function HasName(item: Json, nameKey: string): Option<bool> {
    match item
    case Obj(fields) => Some(nameKey in fields)
    case Arr(items) => Some(Str(nameKey) in items)
    case Str(s) => Some(Contains(s, nameKey))
    case _ => None
  }

  predicate Contains(s: string, part: string) {
    part <= s || (s != "" && Contains(s[1..], part))
  }

  lemma {:induction false} ContainsIff(s: string, part: string)
    ensures Contains(s, part) <==> exists i :: 0 <= i <= |s| && part <= s[i..]
  {
    assert s[0..] == s;
    if s != "" {
      ContainsIff(s[1..], part);
      if i :| 0 <= i <= |s| && part <= s[i..] {
        assert i > 0 ==> s[1..][i - 1..] == s[i..];
      }
      if i :| 0 <= i <= |s[1..]| && part <= s[1..][i..] {
        assert s[1..][i..] == s[i + 1..];
      }
    }
  }

  /** Keep or drop one item; indexing anything but an object by a key raises. */
  function Check(glob: Glob, server: string, rules: seq<Rule>, nameKey: string, item: Json): Option<bool> {
    match HasName(item, nameKey)
    case None => None
    case Some(false) => Some(false)
    case Some(true) => if item.Obj? then CallAllowed(glob, server, item.fields[nameKey], rules) else None
  }

  /** What becomes of one item of a list: an object is kept if its name is allowed and dropped if it has
      none; anything that can be searched for the name key raises if that is found and is dropped if
      not; anything else raises. */
  lemma {:induction false} ItemVerdict(glob: Glob, server: string, rules: seq<Rule>, nameKey: string, item: Json)
    ensures Check(glob, server, rules, nameKey, item) ==
      match item
      case Obj(fields) => if nameKey in fields then CallAllowed(glob, server, fields[nameKey], rules) else Some(false)
      case Arr(items) => if exists x :: x in items && x == Str(nameKey) then None else Some(false)
      case Str(s) => if exists i :: 0 <= i <= |s| && nameKey <= s[i..] then None else Some(false)
      case _ => None
  {
    if item.Str? {
      ContainsIff(item.s, nameKey);
    }
  }

  /** `_filter_list_by_permission` on a list. */
  function FilterItems(glob: Glob, server: string, rules: seq<Rule>, nameKey: string,
                       items: seq<Json>): Option<seq<Json>> {
    if items == [] then Some([])
    else
      match Check(glob, server, rules, nameKey, items[0])
      case None => None
      case Some(keep) =>
        match FilterItems(glob, server, rules, nameKey, items[1..])
        case None => None
        case Some(rest) => Some((if keep then [items[0]] else []) + rest)
  }

  /** One item that raises fails the whole list. */
  lemma {:induction false} FilterRaisesIff(glob: Glob, server: string, rules: seq<Rule>, nameKey: string,
                                           items: seq<Json>)
    ensures FilterItems(glob, server, rules, nameKey, items).None? <==>
            exists item :: item in items && Check(glob, server, rules, nameKey, item).None?
  {
    if items != [] {
      FilterRaisesIff(glob, server, rules, nameKey, items[1..]);
      assert items[0] in items;
      assert forall item :: item in items <==> item == items[0] || item in items[1..];
    }
  }

  function Letters(s: string): seq<Json> {
    seq(|s|, i requires 0 <= i < |s| => Str([s[i]]))
  }

  /** `_filter_list_by_permission` on whatever the upstream sent: iterating an object gives its
      keys, iterating a string its characters. */
  function FilterAny(glob: Glob, server: string, rules: seq<Rule>, nameKey: string, items: Json): Option<seq<Json>> {
    match items
    case Arr(xs) => FilterItems(glob, server, rules, nameKey, xs)
    case Str(s) => FilterItems(glob, server, rules, nameKey, Letters(s))
    case Obj(fields) => if exists key :: key in fields && Contains(key, nameKey) then None else Some([])
    case _ => None
  }

  /** A list that is an object is read as its keys: one that contains the name key raises, since a text
      cannot be indexed by it, and otherwise nothing survives. */
  lemma {:induction false} ObjectKeysAsItems(glob: Glob, server: string, rules: seq<Rule>, nameKey: string,
                                             fields: map<string, Json>)
    ensures FilterAny(glob, server, rules, nameKey, Obj(fields)) ==
      if exists key, i :: key in fields && 0 <= i <= |key| && nameKey <= key[i..] then None else Some([])
  {
    forall key | key in fields
      ensures Contains(key, nameKey) <==> exists i :: 0 <= i <= |key| && nameKey <= key[i..]
    {
      ContainsIff(key, nameKey);
    }
  }

  /** An object whose name the call path would allow. */
  function Visible(glob: Glob, server: string, rules: seq<Rule>, nameKey: string): Json -> bool {
    (item: Json) => item.Obj? && nameKey in item.fields && item.fields[nameKey].Str?
                    && Evaluate(glob, server, item.fields[nameKey].s, rules).allowed
  }

  lemma CheckIsVisible(glob: Glob, server: string, rules: seq<Rule>, nameKey: string, item: Json)
    requires Check(glob, server, rules, nameKey, item).Some?
    ensures Check(glob, server, rules, nameKey, item).value <==> Visible(glob, server, rules, nameKey)(item)
  {
  }

  lemma FilterStep<T>(keep: T -> bool, kept: bool, items: seq<T>)
    requires items != [] && kept == keep(items[0])
    ensures Filter(keep, items) == (if kept then [items[0]] else []) + Filter(keep, items[1..])
  {
  }

  /** The items survive, in order, exactly when they are visible, whatever the upstream sent. */
  lemma {:induction false} FilterItemsKeepsVisible(glob: Glob, server: string, rules: seq<Rule>, nameKey: string,
                                                   items: seq<Json>)
    requires FilterItems(glob, server, rules, nameKey, items).Some?
    ensures FilterItems(glob, server, rules, nameKey, items).value
         == Filter(Visible(glob, server, rules, nameKey), items)
  {
    if items != [] {
      FilterItemsKeepsVisible(glob, server, rules, nameKey, items[1..]);
      CheckIsVisible(glob, server, rules, nameKey, items[0]);
      FilterStep(Visible(glob, server, rules, nameKey), Check(glob, server, rules, nameKey, items[0]).value, items);
    }
  }

  /** A list of objects, each with a string under the name key or nothing there. */
  predicate Named(nameKey: string, item: Json) {
    item.Obj? && (nameKey in item.fields ==> item.fields[nameKey].Str?)
  }

  lemma {:induction false} NamedItemsNeverRaise(glob: Glob, server: string, rules: seq<Rule>, nameKey: string,
                                                items: seq<Json>)
    requires forall item :: item in items ==> Named(nameKey, item)
    ensures FilterItems(glob, server, rules, nameKey, items).Some?
  {
    if items != [] {
      assert Named(nameKey, items[0]) && Check(glob, server, rules, nameKey, items[0]).Some?;
      NamedItemsNeverRaise(glob, server, rules, nameKey, items[1..]);
    }
  }

  lemma FilterAnyKeepsVisible(glob: Glob, server: string, rules: seq<Rule>, nameKey: string, items: Json)
    requires FilterAny(glob, server, rules, nameKey, items).Some?
    ensures forall item :: item in FilterAny(glob, server, rules, nameKey, items).value ==>
              Visible(glob, server, rules, nameKey)(item)
  {
    if items.Obj? {
      return;
    }
    var xs := if items.Arr? then items.items else Letters(items.s);
    FilterItemsKeepsVisible(glob, server, rules, nameKey, xs);
    forall item | item in FilterItems(glob, server, rules, nameKey, xs).value
      ensures Visible(glob, server, rules, nameKey)(item)
    {
      FilterMember(Visible(glob, server, rules, nameKey), xs, item);
    }
  }

  // ----- responses ---------------------------------------------------------------------------

  const RESULT := "result"

  /** The list inside a response. */
  predicate HasList(body: Json, listKey: string) {
    body.Obj? && RESULT in body.fields && body.fields[RESULT].Obj? && listKey in body.fields[RESULT].fields
  }

  function ListOf(body: Json, listKey: string): Json
    requires HasList(body, listKey)
  {
    body.fields[RESULT].fields[listKey]
  }

  /** Where the list stands. */
  lemma ListStandsInResult(body: Json, listKey: string)
    ensures HasList(body, listKey) <==>
      body.Obj? && "result" in body.fields && body.fields["result"].Obj? && listKey in body.fields["result"].fields
    ensures HasList(body, listKey) ==> ListOf(body, listKey) == body.fields["result"].fields[listKey]
  {
  }

  /** The response with another list. */
  function WithList(body: Json, listKey: string, items: seq<Json>): Json
    requires body.Obj? && RESULT in body.fields && body.fields[RESULT].Obj?
  {
    Obj(body.fields[RESULT := Obj(body.fields[RESULT].fields[listKey := Arr(items)])])
  }

  ghost predicate KnownShape(body: Json, listKey: string, nameKey: string) {
    && HasList(body, listKey) && ListOf(body, listKey).Arr?
    && forall item :: item in ListOf(body, listKey).items ==> Named(nameKey, item)
  }

  /** What the subject gets to see of a response: in the list only what it may call, the rest
      as it came; a response without a result object comes back as it is. */
  ghost predicate Shown(glob: Glob, server: string, rules: seq<Rule>, listKey: string, nameKey: string, body: Json,
                        shown: Json) {
    if !body.Obj? then false
    else if RESULT !in body.fields || !body.fields[RESULT].Obj? then shown == body
    else
      && HasList(shown, listKey) && ListOf(shown, listKey).Arr?
      && shown == WithList(body, listKey, ListOf(shown, listKey).items)
      && (forall item :: item in ListOf(shown, listKey).items ==> Visible(glob, server, rules, nameKey)(item))
      && (!HasList(body, listKey) ==> ListOf(shown, listKey).items == [])
      && (KnownShape(body, listKey, nameKey) ==>
            ListOf(shown, listKey).items == Filter(Visible(glob, server, rules, nameKey), ListOf(body, listKey).items))
  }

  /** `_filter_generic_list`; None stands for an exception. */
  method FilterGenericList(glob: Glob, t: Tables, subject: Subject, server: string, listKey: string, nameKey: string,
                           body: Json)
    returns (r: Option<Json>)
    ensures r.Some? ==>
      Shown(glob, server, PermissionsForSubject(t, subject.tenant, subject.kind, subject.id),
            listKey, nameKey, body, r.value)
    ensures KnownShape(body, listKey, nameKey) || (body.Obj? && !HasList(body, listKey)) ==> r.Some?
  {
    if !body.Obj? {
      return None;
    }
    var response := body.fields;
    if RESULT !in body.fields || !body.fields[RESULT].Obj? {
      return Some(Obj(response));
    }
    var result := body.fields[RESULT].fields;
    if listKey !in result {
      response := response[RESULT := Obj(result[listKey := Arr([])])];
      return Some(Obj(response));
    }
    var rules := PermissionsForSubject(t, subject.tenant, subject.kind, subject.id);
    var allowed := FilterAny(glob, server, rules, nameKey, result[listKey]);
    if KnownShape(body, listKey, nameKey) {
      NamedItemsNeverRaise(glob, server, rules, nameKey, result[listKey].items);
      FilterItemsKeepsVisible(glob, server, rules, nameKey, result[listKey].items);
    }
    if allowed.None? {
      return None;
    }
    FilterAnyKeepsVisible(glob, server, rules, nameKey, result[listKey]);
    response := response[RESULT := Obj(result[listKey := Arr(allowed.value)])];
    return Some(Obj(response));
  }

  /** Listed is callable: in a response of known shape an item is shown exactly when its name is
      permitted, by the declarative decision, to the subject. */
  lemma ShownIffPermitted(glob: Glob, server: string, rules: seq<Rule>, listKey: string, nameKey: string, body: Json,
                          shown: Json, item: Json)
    requires KnownShape(body, listKey, nameKey) && Shown(glob, server, rules, listKey, nameKey, body, shown)
    ensures item in ListOf(shown, listKey).items <==>
      && item in ListOf(body, listKey).items && nameKey in item.fields
      && Permitted(glob, server, item.fields[nameKey].s, rules)
  {
    FilterMember(Visible(glob, server, rules, nameKey), ListOf(body, listKey).items, item);
    if item in ListOf(body, listKey).items {
      assert Named(nameKey, item);
      if nameKey in item.fields {
        EvaluateIsPermitted(glob, server, item.fields[nameKey].s, rules);
      }
    }
  }

  /** Filtering what was already filtered changes nothing. */
  lemma ShownTwice(glob: Glob, server: string, rules: seq<Rule>, listKey: string, nameKey: string, body: Json,
                   shown: Json, again: Json)
    requires body.Obj?
    requires Shown(glob, server, rules, listKey, nameKey, body, shown)
    requires Shown(glob, server, rules, listKey, nameKey, shown, again)
    ensures again == shown
  {
    if RESULT in body.fields && body.fields[RESULT].Obj? {
      var items := ListOf(shown, listKey).items;
      assert KnownShape(shown, listKey, nameKey);
      FilterKeepsAll(Visible(glob, server, rules, nameKey), items);
      assert ListOf(again, listKey).items == items;
      assert shown.fields[RESULT].fields[listKey := Arr(items)] == shown.fields[RESULT].fields;
      assert again == shown;
    }
  }

  lemma {:induction false} FilterKeepsAll<T>(keep: T -> bool, s: seq<T>)
    requires forall x :: x in s ==> keep(x)
    ensures Filter(keep, s) == s
  {
    if s != [] {
      FilterKeepsAll(keep, s[1..]);
    }
  }
}
