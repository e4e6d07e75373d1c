/** Translating upstream permission strings into structured permissions. */
module Permissions {
  import opened Basics

  datatype Permission = Permission(resource: string, action: string)

  const KNOWN_PERMISSIONS: map<string, Permission> := map[
    "support:ticket_read" := Permission("ticket", "view"),
    "support:ticket_write" := Permission("ticket", "update"),
    "support:conversation_read" := Permission("conversation", "view"),
    "support:conversation_write" := Permission("conversation", "update"),
    "support:settings_manage" := Permission("settings", "manage"),
    "support:agent_assign" := Permission("ticket", "assign")
  ]

  const RESOURCE_VALUES: seq<string> := [
    "conversation", "ticket", "customer", "team", "channel", "connector", "knowledge_base", "workflow",
    "ai_agent", "analytics", "settings", "admin_dashboard", "api_key", "webhook", "billing", "widget"
  ]

  const ACTION_SYNONYMS: map<string, string> := map[
    "read" := "view", "view" := "view", "list" := "view",
    "write" := "update", "update" := "update", "edit" := "update",
    "create" := "create", "add" := "create",
    "delete" := "delete", "remove" := "delete",
    "assign" := "assign", "resolve" := "resolve", "export" := "export", "manage" := "manage"
  ]

  /** The properties every JavaScript object has although nobody put them there. */
  const INHERITED: set<string> := {
    "constructor", "toString", "toLocaleString", "valueOf", "hasOwnProperty", "isPrototypeOf", "propertyIsEnumerable",
    "__defineGetter__", "__defineSetter__", "__lookupGetter__", "__lookupSetter__", "__proto__"
  }

  /** An inherited value where an action should be: a function, which is told from others by its text. Here its
      name in brackets stands for it. */
  function Alien(property: string): string {
    "[" + property + "]"
  }

  /** The tables together. Two of them are plain objects, so a lookup finds the inherited properties too. What
      follows is said of any tables that are clean, and then of these. */
  datatype Tables = Tables(
    known: map<string, Permission>, resources: seq<string>, synonyms: map<string, string>, inherited: set<string>)

  const TABLES: Tables := Tables(KNOWN_PERMISSIONS, RESOURCE_VALUES, ACTION_SYNONYMS, INHERITED)

  // ---- splitting strings ----

  predicate Without(s: string, c: char) {
    forall i :: 0 <= i < |s| ==> s[i] != c
  }

  /** `s.lastIndexOf(c)` */
  function LastIndexOf(s: string, c: char): (at: int)
    ensures -1 <= at < |s|
    ensures at >= 0 ==> s[at] == c
    ensures forall i :: at < i < |s| ==> s[i] != c
  {
    if s == "" then -1
    else if s[|s| - 1] == c then |s| - 1
    else LastIndexOf(s[..|s| - 1], c)
  }

  /** `s.split(c).pop()`, or all of `s` when it has no `c`. */
  function AfterLast(s: string, c: char): string {
    s[LastIndexOf(s, c) + 1..]
  }

  lemma LastIndexIs(s: string, c: char, i: nat)
    requires i < |s| && s[i] == c && forall j :: i < j < |s| ==> s[j] != c
    ensures LastIndexOf(s, c) == i
  {
  }

  lemma NoneInTail(before: string, c: char, after: string, j: nat)
    requires Without(after, c) && |before| <= j < |before + after|
    ensures (before + after)[j] != c
  {
    assert (before + after)[j] == after[j - |before|];
  }

  lemma LastIndexUnique(before: string, c: char, after: string, s: string)
    requires Without(after, c) && s == before + [c] + after
    ensures LastIndexOf(s, c) == |before|
  {
    assert s[|before|] == c && |s| == |before| + 1 + |after|;
    forall j | |before| < j < |s| ensures s[j] != c {
      NoneInTail(before + [c], c, after, j);
    }
    LastIndexIs(s, c, |before|);
  }

  lemma LastIndexNone(s: string, c: char)
    requires Without(s, c)
    ensures LastIndexOf(s, c) == -1
  {
  }

  // ---- the parser ----

  /** No resource, synonym or action holds a separator, the table of known names stays in the vocabulary, and
      what is inherited stays out of it. */
  ghost predicate Clean(t: Tables) {
    && (forall r :: r in t.resources ==> Without(r, ':'))
    && (forall s :: s in t.synonyms ==> Without(s, ':') && Without(s, '_') && Without(t.synonyms[s], ':'))
    && (forall n :: n in t.known ==> t.known[n].resource in t.resources && t.known[n].action in t.synonyms.Values)
    && "manage" in t.synonyms.Values && "undefined" !in t.resources
    && (forall s :: s in t.inherited ==> Without(s, ':') && Alien(s) !in t.synonyms.Values)
  }

  lemma ResourcesAreClean(r: string)
    requires r in RESOURCE_VALUES
    ensures Without(r, ':')
  {
  }

  lemma SynonymsAreClean(s: string)
    requires s in ACTION_SYNONYMS
    ensures Without(s, ':') && Without(s, '_') && Without(ACTION_SYNONYMS[s], ':')
  {
  }

  lemma InheritedNamesAreClean(s: string)
    requires s in INHERITED
    ensures Without(s, ':')
  {
  }

  lemma ActionsAreNoAliens(s: string)
    requires s in ACTION_SYNONYMS
    ensures ACTION_SYNONYMS[s] != "" && ACTION_SYNONYMS[s][0] != '['
  {
  }

  lemma UndefinedIsNoResource()
    ensures "undefined" !in RESOURCE_VALUES
  {
  }

  lemma InheritedStaysOut(s: string)
    requires s in INHERITED
    ensures Without(s, ':') && Alien(s) !in ACTION_SYNONYMS.Values
  {
    InheritedNamesAreClean(s);
    if Alien(s) in ACTION_SYNONYMS.Values {
      var a :| a in ACTION_SYNONYMS && ACTION_SYNONYMS[a] == Alien(s);
      ActionsAreNoAliens(a);
    }
  }

  lemma ActionsHaveSynonyms()
    ensures {"manage", "view", "update", "assign"} <= ACTION_SYNONYMS.Values
  {
    assert ACTION_SYNONYMS["manage"] == "manage" && ACTION_SYNONYMS["view"] == "view";
    assert ACTION_SYNONYMS["update"] == "update" && ACTION_SYNONYMS["assign"] == "assign";
  }

  lemma KnownInVocabulary(n: string)
    requires n in KNOWN_PERMISSIONS
    ensures KNOWN_PERMISSIONS[n].resource in ["conversation", "ticket", "settings"]
    ensures KNOWN_PERMISSIONS[n].action in {"manage", "view", "update", "assign"}
  {
  }

  lemma SomeResources()
    ensures forall r :: r in ["conversation", "ticket", "settings"] ==> r in RESOURCE_VALUES
  {
    assert RESOURCE_VALUES[0] == "conversation" && RESOURCE_VALUES[1] == "ticket" && RESOURCE_VALUES[10] == "settings";
  }

  lemma TablesAreClean()
    ensures Clean(TABLES)
  {
    forall r | r in RESOURCE_VALUES ensures Without(r, ':') { ResourcesAreClean(r); }
    forall s | s in ACTION_SYNONYMS
      ensures Without(s, ':') && Without(s, '_') && Without(ACTION_SYNONYMS[s], ':')
    {
      SynonymsAreClean(s);
    }
    ActionsHaveSynonyms();
    SomeResources();
    forall n | n in KNOWN_PERMISSIONS
      ensures KNOWN_PERMISSIONS[n].resource in RESOURCE_VALUES && KNOWN_PERMISSIONS[n].action in ACTION_SYNONYMS.Values
    {
      KnownInVocabulary(n);
    }
    UndefinedIsNoResource();
    forall s | s in INHERITED ensures Without(s, ':') && Alien(s) !in ACTION_SYNONYMS.Values {
      InheritedStaysOut(s);
    }
  }

  function Parse(t: Tables, name: string): Option<Permission> {
    var segment := AfterLast(name, ':');
    var idx := LastIndexOf(segment, '_');
    if idx == -1 then None
    else Classify(t, segment[..idx], segment[idx + 1..])
  }

  /** Looking a synonym up: the table's own entries first, then what every object has. */
  function ActionOf(t: Tables, synonym: string): Option<string> {
    if synonym in t.synonyms then Some(t.synonyms[synonym])
    else if synonym in t.inherited then Some(Alien(synonym))
    else None
  }

  function Classify(t: Tables, resource: string, synonym: string): Option<Permission> {
    var action := ActionOf(t, synonym);
    if action.None? || resource !in t.resources then None else Some(Permission(resource, action.value))
  }

  /** A namespace is nothing, or any text up to and including a colon. */
  predicate IsNamespace(ns: string) {
    ns == "" || ns[|ns| - 1] == ':'
  }

  lemma AfterNamespace(ns: string, segment: string)
    requires IsNamespace(ns) && Without(segment, ':')
    ensures AfterLast(ns + segment, ':') == segment
  {
    if ns == "" {
      assert ns + segment == segment;
      LastIndexNone(segment, ':');
    } else {
      assert ns + segment == ns[..|ns| - 1] + [':'] + segment;
      LastIndexUnique(ns[..|ns| - 1], ':', segment, ns + segment);
    }
  }

  /** How a name of the conventional form is taken apart, whatever the namespace and however many
      underscores the resource has. */
  lemma ParseTakesApart(t: Tables, ns: string, resource: string, synonym: string)
    requires IsNamespace(ns) && Without(resource, ':') && Without(synonym, ':') && Without(synonym, '_')
    ensures Parse(t, ns + resource + "_" + synonym) == Classify(t, resource, synonym)
  {
    var segment := resource + ['_'] + synonym;
    assert ns + resource + "_" + synonym == ns + segment;
    AfterNamespace(ns, segment);
    LastIndexUnique(resource, '_', synonym, segment);
    assert segment[..|resource|] == resource && segment[|resource| + 1..] == synonym;
  }

  predicate Spells(t: Tables, name: string, ns: string, resource: string, synonym: string, p: Permission) {
    && IsNamespace(ns) && resource in t.resources && Without(synonym, ':') && Without(synonym, '_')
    && name == ns + resource + "_" + synonym
    && ActionOf(t, synonym) == Some(p.action) && p.resource == resource
  }

  /** A name parses to a permission exactly when it is a namespace, a resource (underscored ones included)
      and a synonym of the action, or an inherited property's name in place of a synonym. */
  lemma ParseIff(t: Tables, name: string, p: Permission)
    requires Clean(t)
    ensures Parse(t, name) == Some(p) <==> exists ns, resource, synonym :: Spells(t, name, ns, resource, synonym, p)
  {
    if Parse(t, name) == Some(p) {
      var at := LastIndexOf(name, ':');
      var segment := name[at + 1..];
      var idx := LastIndexOf(segment, '_');
      assert name == name[..at + 1] + segment[..idx] + "_" + segment[idx + 1..];
      assert Without(segment[idx + 1..], ':') && Without(segment[idx + 1..], '_');
      assert Spells(t, name, name[..at + 1], segment[..idx], segment[idx + 1..], p);
    }
    forall ns, resource, synonym | Spells(t, name, ns, resource, synonym, p) ensures Parse(t, name) == Some(p) {
      ParseTakesApart(t, ns, resource, synonym);
    }
  }

  /** The words for each action. */
  function WordsFor(action: string): set<string> {
    if action == "view" then {"read", "view", "list"}
    else if action == "update" then {"write", "update", "edit"}
    else if action == "create" then {"create", "add"}
    else if action == "delete" then {"delete", "remove"}
    else if action in ["assign", "resolve", "export", "manage"] then {action}
    else {}
  }

  lemma SynonymIsWord(synonym: string)
    requires synonym in ACTION_SYNONYMS
    ensures synonym in WordsFor(ACTION_SYNONYMS[synonym])
  {
  }

  lemma WordIsSynonym(synonym: string, action: string)
    requires synonym in WordsFor(action)
    ensures synonym in ACTION_SYNONYMS && ACTION_SYNONYMS[synonym] == action
  {
  }

  /** With the gateway's own tables: every resource is found with every word for an action in any namespace. */
  lemma EveryPermissionCanBeSpelled(ns: string, resource: string, action: string, synonym: string)
    requires IsNamespace(ns) && resource in RESOURCE_VALUES && synonym in WordsFor(action)
    ensures Parse(TABLES, ns + resource + "_" + synonym) == Some(Permission(resource, action))
  {
    WordIsSynonym(synonym, action);
    TablesAreClean();
    ParseTakesApart(TABLES, ns, resource, synonym);
  }

  /** How the known names are put together. */
  function KnownParts(name: string): (string, string)
    requires name in KNOWN_PERMISSIONS
  {
    if name == "support:ticket_read" then ("ticket", "read")
    else if name == "support:ticket_write" then ("ticket", "write")
    else if name == "support:conversation_read" then ("conversation", "read")
    else if name == "support:conversation_write" then ("conversation", "write")
    else if name == "support:settings_manage" then ("settings", "manage")
    else ("agent", "assign")
  }

  lemma TicketNames(ns: string)
    requires ns == "support:"
    ensures ns + "ticket" + "_" + "read" == "support:ticket_read"
    ensures ns + "ticket" + "_" + "write" == "support:ticket_write"
  {
  }

  lemma ConversationNames(ns: string)
    requires ns == "support:"
    ensures ns + "conversation" + "_" + "read" == "support:conversation_read"
    ensures ns + "conversation" + "_" + "write" == "support:conversation_write"
  {
  }

  lemma OtherNames(ns: string)
    requires ns == "support:"
    ensures ns + "settings" + "_" + "manage" == "support:settings_manage"
    ensures ns + "agent" + "_" + "assign" == "support:agent_assign"
  {
  }

  predicate Spelled(name: string, ns: string, resource: string, synonym: string) {
    name == ns + resource + "_" + synonym
  }

  lemma KnownNamesSpelled(name: string, ns: string)
    requires name in KNOWN_PERMISSIONS && ns == "support:"
    ensures Spelled(name, ns, KnownParts(name).0, KnownParts(name).1)
  {
    TicketNames(ns);
    ConversationNames(ns);
    OtherNames(ns);
  }

  lemma KnownPartsAreClean(name: string)
    requires name in KNOWN_PERMISSIONS
    ensures Without(KnownParts(name).0, ':')
    ensures KnownParts(name).1 in ["read", "write", "manage", "assign"]
  {
  }

  lemma SomeSynonyms(s: string)
    requires s in ["read", "write", "manage", "assign"]
    ensures s in ACTION_SYNONYMS && Without(s, ':') && Without(s, '_')
    ensures ACTION_SYNONYMS[s] == if s == "read" then "view" else if s == "write" then "update" else s
  {
  }

  lemma AgentIsNoResource()
    ensures "agent" !in RESOURCE_VALUES
  {
  }

  lemma KnownNamesClassified(name: string, resource: string, synonym: string)
    requires name in KNOWN_PERMISSIONS && KnownParts(name) == (resource, synonym)
    ensures Classify(TABLES, resource, synonym)
         == if name == "support:agent_assign" then None else Some(KNOWN_PERMISSIONS[name])
  {
    SomeResources();
    AgentIsNoResource();
    KnownPartsAreClean(name);
    SomeSynonyms(synonym);
  }

  /** The table of known names says nothing the parser would contradict: where the parser accepts a known
      name it gives the table's permission, and the one name it does not accept is `support:agent_assign`. */
  lemma TableAgreesWithParser(t: Tables, name: string)
    requires t == TABLES && name in t.known
    ensures Parse(t, name) == if name == "support:agent_assign" then None else Some(t.known[name])
    ensures name == "support:agent_assign" ==> t.known[name] == Permission("ticket", "assign")
  {
    var ns := "support:";
    var (resource, synonym) := KnownParts(name);
    KnownNamesSpelled(name, ns);
    KnownPartsAreClean(name);
    SomeSynonyms(synonym);
    KnownNamesClassified(name, resource, synonym);
    ParseTakesApart(t, ns, resource, synonym);
  }

  // ---- mapping a list ----

  /** A known name, then an inherited property, whose resource and action are both undefined, then parsing. */
  function Resolve(t: Tables, name: string): Option<Permission> {
    if name in t.known then Some(t.known[name])
    else if name in t.inherited then Some(Permission("undefined", "undefined"))
    else Parse(t, name)
  }

  /** What a name means: what the table of known names says; else, for an inherited property, nothing defined; else
      what the name spells. */
  ghost predicate Means(t: Tables, name: string, p: Permission) {
    if name in t.known then p == t.known[name]
    else if name in t.inherited then p == Permission("undefined", "undefined")
    else exists ns, resource, synonym :: Spells(t, name, ns, resource, synonym, p)
  }

  lemma ResolveIff(t: Tables, name: string, p: Permission)
    requires Clean(t)
    ensures Resolve(t, name) == Some(p) <==> Means(t, name, p)
  {
    ParseIff(t, name, p);
  }

  function ManageEverything(t: Tables): set<Permission> {
    set r | r in t.resources :: Permission(r, "manage")
  }

  /** What a user is granted, as a set. */
  function Granted(t: Tables, raw: seq<string>, roles: seq<string>, isSuperAdmin: bool): set<Permission> {
    (if isSuperAdmin || "super_admin" in roles then ManageEverything(t) else {})
    + set n | n in raw && Resolve(t, n).Some? :: Resolve(t, n).value
  }

  /** More names never take a permission away, and neither order nor repetition of the names matters. */
  lemma GrantedMonotone(t: Tables, raw: seq<string>, more: seq<string>, roles: seq<string>, isSuperAdmin: bool)
    requires forall n :: n in raw ==> n in more
    ensures Granted(t, raw, roles, isSuperAdmin) <= Granted(t, more, roles, isSuperAdmin)
    ensures (forall n :: n in more ==> n in raw) ==>
              Granted(t, raw, roles, isSuperAdmin) == Granted(t, more, roles, isSuperAdmin)
  {
  }

  lemma GrantedOneMore(t: Tables, raw: seq<string>, name: string, roles: seq<string>, isSuperAdmin: bool)
    ensures Granted(t, raw + [name], roles, isSuperAdmin)
         == Granted(t, raw, roles, isSuperAdmin) + if Resolve(t, name).Some? then {Resolve(t, name).value} else {}
  {
    assert forall n :: n in raw + [name] <==> n in raw || n == name;
  }

  predicate InVocabulary(t: Tables, p: Permission) {
    p.resource in t.resources && p.action in t.synonyms.Values
  }

  /** The name of an inherited property, alone or in place of a synonym after a known resource. */
  ghost predicate NamesInherited(t: Tables, name: string) {
    && name !in t.known
    && (name in t.inherited
        || exists ns, resource, synonym, p :: Spells(t, name, ns, resource, synonym, p) && synonym !in t.synonyms)
  }

  lemma ResolvedInVocabularyIff(t: Tables, name: string)
    requires Clean(t) && Resolve(t, name).Some?
    ensures InVocabulary(t, Resolve(t, name).value) <==> !NamesInherited(t, name)
    ensures Without(Resolve(t, name).value.resource, ':') && Without(Resolve(t, name).value.action, ':')
  {
    if name !in t.known && name !in t.inherited {
      var p := Parse(t, name).value;
      ParseIff(t, name, p);
      var ns, resource, synonym :| Spells(t, name, ns, resource, synonym, p);
      if synonym in t.synonyms {
        assert p.action in t.synonyms.Values;
        forall ns', r', s', p' | Spells(t, name, ns', r', s', p') ensures s' in t.synonyms {
          ParseIff(t, name, p');
          assert p' == p;
        }
      }
    } else if name in t.known {
      var s :| s in t.synonyms && t.synonyms[s] == t.known[name].action;
    }
  }

  lemma InheritedResolves(t: Tables, name: string)
    requires Clean(t) && NamesInherited(t, name)
    ensures Resolve(t, name).Some?
  {
    if name !in t.inherited {
      var ns, resource, synonym, p :| Spells(t, name, ns, resource, synonym, p) && synonym !in t.synonyms;
      ParseIff(t, name, p);
    }
  }

  /** Nothing outside the fixed vocabularies is granted if and only if no name in the list names an inherited
      property, such as `toString` or `support:ticket_constructor`. */
  lemma GrantedInVocabularyIff(t: Tables, raw: seq<string>, roles: seq<string>, isSuperAdmin: bool)
    requires Clean(t)
    ensures (forall p :: p in Granted(t, raw, roles, isSuperAdmin) ==> InVocabulary(t, p))
            <==> (forall n :: n in raw ==> !NamesInherited(t, n))
  {
    forall n | n in raw && Resolve(t, n).Some? ensures InVocabulary(t, Resolve(t, n).value) <==> !NamesInherited(t, n) {
      ResolvedInVocabularyIff(t, n);
    }
    forall n | n in raw && NamesInherited(t, n) ensures Resolve(t, n).Some? {
      InheritedResolves(t, n);
    }
    if n :| n in raw && NamesInherited(t, n) {
      assert Resolve(t, n).value in Granted(t, raw, roles, isSuperAdmin);
    }
  }

  lemma ConstructorIsNoSynonym()
    ensures "constructor" !in ACTION_SYNONYMS && Without("constructor", '_')
  {
  }

  /** In particular `support:ticket_constructor` is granted, with an action nobody defined. */
  lemma InheritedIsGranted()
    ensures Parse(TABLES, "support:" + "ticket" + "_" + "constructor")
         == Some(Permission("ticket", Alien("constructor")))
    ensures Alien("constructor") !in ACTION_SYNONYMS.Values
  {
    InheritedStaysOut("constructor");
    SomeResources();
    ConstructorIsNoSynonym();
    ParseTakesApart(TABLES, "support:", "ticket", "constructor");
  }

  lemma GrantedIsClean(t: Tables, raw: seq<string>, roles: seq<string>, isSuperAdmin: bool, p: Permission)
    requires Clean(t) && p in Granted(t, raw, roles, isSuperAdmin)
    ensures Without(p.resource, ':') && Without(p.action, ':')
  {
    if p !in ManageEverything(t) {
      var n :| n in raw && Resolve(t, n) == Some(p);
      ResolvedInVocabularyIff(t, n);
    }
  }

  /** The key under which a permission is collected; no permission has a scope here. */
  function KeyOf(p: Permission): string {
    p.resource + ":" + p.action + ":"
  }

  lemma KeyInjective(p: Permission, q: Permission)
    requires Without(p.resource, ':') && Without(p.action, ':') && Without(q.resource, ':') && Without(q.action, ':')
    requires KeyOf(p) == KeyOf(q)
    ensures p == q
  {
    var s := KeyOf(p);
    assert s[..|s| - 1] == p.resource + [':'] + p.action;
    assert s[..|s| - 1] == q.resource + [':'] + q.action;
    LastIndexUnique(p.resource, ':', p.action, s[..|s| - 1]);
    LastIndexUnique(q.resource, ':', q.action, s[..|s| - 1]);
    assert s[..|p.resource|] == p.resource && s[..|q.resource|] == q.resource;
    assert s[|p.resource| + 1..|s| - 1] == p.action && s[|q.resource| + 1..|s| - 1] == q.action;
  }

  /** A JavaScript Map: values by key, in order of first insertion. */
  class PermissionMap {
    var byKey: map<string, Permission>
    var order: seq<string>

    ghost predicate Valid()
      reads this
    {
      && (forall i, j :: 0 <= i < j < |order| ==> order[i] != order[j])
      && (forall k :: k in byKey <==> k in order)
      && (forall k :: k in byKey ==> KeyOf(byKey[k]) == k)
    }

    ghost function Contents(): set<Permission>
      reads this
    {
      byKey.Values
    }

    constructor ()
      ensures Valid() && Contents() == {}
    {
      byKey, order := map[], [];
    }

    /** Adding a permission twice is adding it once, as long as keys tell permissions apart. */
    method Add(p: Permission)
      requires Valid()
      requires forall q :: q in Contents() && KeyOf(q) == KeyOf(p) ==> q == p
      modifies this
      ensures Valid() && Contents() == old(Contents()) + {p}
    {
      var k := KeyOf(p);
      if k !in byKey {
        order := order + [k];
      }
      ghost var before := byKey;
      byKey := byKey[k := p];
      assert Contents() == before.Values + {p} by {
        assert byKey[k] == p;
        forall q | q in before.Values ensures q in byKey.Values {
          var kq :| kq in before && before[kq] == q;
          assert kq == KeyOf(q);
          if kq == k { assert q == p; }
          assert byKey[kq] == q;
        }
      }
    }

    method Values() returns (out: seq<Permission>)
      requires Valid()
      ensures forall i, j :: 0 <= i < j < |out| ==> out[i] != out[j]
      ensures forall p :: p in out <==> p in Contents()
    {
      out := [];
      for n := 0 to |order|
        invariant |out| == n
        invariant forall i :: 0 <= i < n ==> out[i] == byKey[order[i]]
      {
        out := out + [byKey[order[n]]];
      }
      forall p | p in Contents() ensures p in out {
        var k :| k in byKey && byKey[k] == p;
        var i :| 0 <= i < |order| && order[i] == k;
        assert out[i] == p;
      }
      forall i, j | 0 <= i < j < |out| ensures out[i] != out[j] {
        assert KeyOf(out[i]) == order[i] && KeyOf(out[j]) == order[j];
      }
    }
  }

  /** The keys tell these permissions apart. */
  ghost predicate KeysTell(all: set<Permission>) {
    forall p, q :: p in all && q in all && KeyOf(p) == KeyOf(q) ==> p == q
  }

  lemma GrantedKeysTell(t: Tables, raw: seq<string>, roles: seq<string>, isSuperAdmin: bool)
    requires Clean(t)
    ensures KeysTell(Granted(t, raw, roles, isSuperAdmin))
  {
    var all := Granted(t, raw, roles, isSuperAdmin);
    forall p, q | p in all && q in all && KeyOf(p) == KeyOf(q) ensures p == q {
      GrantedIsClean(t, raw, roles, isSuperAdmin, p);
      GrantedIsClean(t, raw, roles, isSuperAdmin, q);
      KeyInjective(p, q);
    }
  }

  /** The loop over the resources for a super admin. */
  method AddManageEverything(t: Tables, m: PermissionMap)
    requires Clean(t) && m.Valid() && m.Contents() == {}
    modifies m
    ensures m.Valid() && m.Contents() == ManageEverything(t)
  {
    var resources := t.resources;
    for n := 0 to |resources|
      invariant m.Valid()
      invariant m.Contents() == set r | r in resources[..n] :: Permission(r, "manage")
    {
      assert resources[..n + 1] == resources[..n] + [resources[n]];
      var p := Permission(resources[n], "manage");
      forall q | q in m.Contents() && KeyOf(q) == KeyOf(p) ensures q == p {
        KeyInjective(q, p);
      }
      m.Add(p);
    }
    assert resources[..|resources|] == resources;
  }

  /** The body of the loop over the names. */
  method AddName(t: Tables, m: PermissionMap, name: string, ghost all: set<Permission>)
    requires m.Valid() && KeysTell(all) && m.Contents() <= all
    requires Resolve(t, name).Some? ==> Resolve(t, name).value in all
    modifies m
    ensures m.Valid()
    ensures m.Contents() == old(m.Contents()) + if Resolve(t, name).Some? then {Resolve(t, name).value} else {}
  {
    if name in t.known {
      m.Add(t.known[name]);
      return;
    }
    if name in t.inherited {
      m.Add(Permission("undefined", "undefined"));
      return;
    }
    var parsed := Parse(t, name);
    if parsed.Some? {
      m.Add(parsed.value);
    }
  }

  /** What the n-th name adds, and that it stays within what all names give. */
  lemma GrantedNext(t: Tables, raw: seq<string>, n: nat, roles: seq<string>, isSuperAdmin: bool)
    requires n < |raw|
    ensures Granted(t, raw[..n + 1], roles, isSuperAdmin)
         == Granted(t, raw[..n], roles, isSuperAdmin)
          + if Resolve(t, raw[n]).Some? then {Resolve(t, raw[n]).value} else {}
    ensures Granted(t, raw[..n + 1], roles, isSuperAdmin) <= Granted(t, raw, roles, isSuperAdmin)
  {
    assert raw[..n + 1] == raw[..n] + [raw[n]];
    GrantedOneMore(t, raw[..n], raw[n], roles, isSuperAdmin);
    GrantedMonotone(t, raw[..n + 1], raw, roles, isSuperAdmin);
  }

  /** The collecting loops, for any clean tables. */
  method Collect(t: Tables, raw: seq<string>, roles: seq<string>, isSuperAdmin: bool) returns (out: seq<Permission>)
    requires Clean(t)
    ensures forall i, j :: 0 <= i < j < |out| ==> out[i] != out[j]
    ensures forall p :: p in out <==> p in Granted(t, raw, roles, isSuperAdmin)
  {
    ghost var all := Granted(t, raw, roles, isSuperAdmin);
    GrantedKeysTell(t, raw, roles, isSuperAdmin);
    var collected := new PermissionMap();
    if isSuperAdmin || "super_admin" in roles {
      AddManageEverything(t, collected);
    }
    assert collected.Contents() == Granted(t, raw[..0], roles, isSuperAdmin);
    for n := 0 to |raw|
      invariant collected.Valid()
      invariant collected.Contents() == Granted(t, raw[..n], roles, isSuperAdmin)
    {
      GrantedNext(t, raw, n, roles, isSuperAdmin);
      AddName(t, collected, raw[n], all);
    }
    assert raw[..|raw|] == raw;
    out := collected.Values();
  }

  /** The resources there are. */
  predicate IsResource(r: string) {
    r in ["conversation", "ticket", "customer", "team", "channel", "connector", "workflow", "analytics", "billing"]
    || r in ["knowledge_base", "ai_agent", "settings", "admin_dashboard", "api_key", "webhook", "widget"]
  }

  lemma ResourcesIff(r: string)
    ensures r in RESOURCE_VALUES <==> IsResource(r)
  {
  }

  predicate SuperAdmin(roles: seq<string>, isSuperAdmin: bool) {
    isSuperAdmin || "super_admin" in roles
  }

  /** In terms of the names: a super admin manages every resource; everybody has what the names mean. */
  lemma GrantedIff(t: Tables, raw: seq<string>, roles: seq<string>, isSuperAdmin: bool, p: Permission)
    requires Clean(t)
    ensures p in Granted(t, raw, roles, isSuperAdmin)
            <==> || (SuperAdmin(roles, isSuperAdmin) && p.action == "manage" && p.resource in t.resources)
                 || exists n :: n in raw && Means(t, n, p)
  {
    forall n | n in raw ensures Resolve(t, n) == Some(p) <==> Means(t, n, p) {
      ResolveIff(t, n, p);
    }
    assert p in ManageEverything(t) <==> p.action == "manage" && p.resource in t.resources;
  }

  /** `mapPermissions`: a list without duplicates that holds exactly `manage` on every resource, for a super admin,
      and what the names mean. */
  method MapPermissions(raw: seq<string>, roles: seq<string>, isSuperAdmin: bool) returns (out: seq<Permission>)
    ensures forall i, j :: 0 <= i < j < |out| ==> out[i] != out[j]
    ensures forall p :: p in out <==>
              || (SuperAdmin(roles, isSuperAdmin) && p.action == "manage" && IsResource(p.resource))
              || exists n :: n in raw && Means(TABLES, n, p)
  {
    TablesAreClean();
    var t := TABLES;
    out := Collect(t, raw, roles, isSuperAdmin);
    forall p ensures p in out <==>
      || (SuperAdmin(roles, isSuperAdmin) && p.action == "manage" && IsResource(p.resource))
      || exists n :: n in raw && Means(TABLES, n, p)
    {
      ResourcesIff(p.resource);
      GrantedIff(t, raw, roles, isSuperAdmin, p);
    }
  }
}
