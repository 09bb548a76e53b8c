/** Template lookup and listing of the gateway. */
module Templates {
  import opened Domain

  datatype Scope = Public | Private | Restricted

  /** tb_message_template */
  datatype Template = Template(id: Id, templateCode: string, scope: Scope, isActive: bool)

  /** tb_client_template_access */
  datatype Access = Access(clientAppId: Id, templateId: Id, isAllowed: bool)

  /** Both tables as one query sees them, in the order the database happens to return rows. */
  datatype Catalog = Catalog(templates: seq<Template>, accesses: seq<Access>)

  /** The unique constraints of the schema: primary keys, template codes, and one access row per pair. */
  ghost predicate Constrained(c: Catalog) {
    && (forall i, j | 0 <= i < j < |c.templates| ::
          c.templates[i].id != c.templates[j].id && c.templates[i].templateCode != c.templates[j].templateCode)
    && (forall i, j | 0 <= i < j < |c.accesses| ::
          (c.accesses[i].clientAppId, c.accesses[i].templateId) != (c.accesses[j].clientAppId, c.accesses[j].templateId))
  }

  /** `findOne` on the template table. */
  function FindActive(rows: seq<Template>, code: string): (r: Option<Template>)
    ensures r.Some? ==> r.value in rows && r.value.templateCode == code && r.value.isActive
    ensures r.None? ==> forall t | t in rows :: !(t.templateCode == code && t.isActive)
  {
    if rows == [] then None
    else if rows[0].templateCode == code && rows[0].isActive then Some(rows[0])
    else FindActive(rows[1..], code)
  }

  /** `findOne` on the access table. */
  function FindAccess(rows: seq<Access>, templateId: Id, clientAppId: Id): (r: Option<Access>)
    ensures r.Some? <==> Allowed(rows, templateId, clientAppId)
  {
    if rows == [] then None
    else if rows[0] == Access(clientAppId, templateId, true) then Some(rows[0])
    else
      assert rows == [rows[0]] + rows[1..];
      FindAccess(rows[1..], templateId, clientAppId)
  }

  ghost predicate Allowed(rows: seq<Access>, templateId: Id, clientAppId: Id) {
    Access(clientAppId, templateId, true) in rows
  }

  /** `assertTemplateAccessible`: whether it returns. */
  predicate Accessible(c: Catalog, t: Template, clientAppId: Id) {
    t.scope == Public || FindAccess(c.accesses, t.id, clientAppId).Some?
  }

  /** `getTemplateByCode`; None is MSG_TEMPLATE_NOT_FOUND. */
  function GetTemplateByCode(c: Catalog, code: string, clientAppId: Id): (r: Option<Template>)
    ensures r.Some? ==> r.value in c.templates && r.value.templateCode == code && r.value.isActive
  {
    match FindActive(c.templates, code)
    case None => None
    case Some(t) => if Accessible(c, t, clientAppId) then Some(t) else None
  }

  function Select(rows: seq<Template>, keep: Template -> bool): (r: seq<Template>)
    ensures forall t :: t in r <==> t in rows && keep(t)
  {
    if rows == [] then []
    else (if keep(rows[0]) then [rows[0]] else []) + Select(rows[1..], keep)
  }

  /** `find({ clientAppId, isAllowed: true })` and the map to template ids. */
  function AllowedIds(rows: seq<Access>, clientAppId: Id): (r: seq<Id>)
    ensures forall id :: id in r <==> Allowed(rows, id, clientAppId)
  {
    if rows == [] then []
    else
      assert rows == [rows[0]] + rows[1..];
      (if rows[0].clientAppId == clientAppId && rows[0].isAllowed then [rows[0].templateId] else [])
      + AllowedIds(rows[1..], clientAppId)
  }

  /** `getClientAvailableTemplates`: one query for a client without access rows, another for one with. */
  function GetClientAvailableTemplates(c: Catalog, clientAppId: Id): seq<Template> {
    var ids := AllowedIds(c.accesses, clientAppId);
    if ids == [] then Select(c.templates, (t: Template) => t.scope == Public && t.isActive)
    else Select(c.templates, (t: Template) => t.isActive && (t.scope == Public || t.id in ids))
  }

  /** A template is listed for a client exactly when looking its code up returns that very template, and that is when
      the client may use it. */
  lemma ListedIffFound(c: Catalog, t: Template, clientAppId: Id)
    requires Constrained(c)
    ensures t in GetClientAvailableTemplates(c, clientAppId)
       <==> GetTemplateByCode(c, t.templateCode, clientAppId) == Some(t)
    ensures t in GetClientAvailableTemplates(c, clientAppId)
       <==> t in c.templates && t.isActive && (t.scope == Public || Access(clientAppId, t.id, true) in c.accesses)
  {
  }

  ghost predicate DistinctIds(rows: seq<Template>) {
    forall i, j | 0 <= i < j < |rows| :: rows[i].id != rows[j].id
  }

  lemma OneInFront(first: Template, rest: seq<Template>)
    requires DistinctIds(rest) && forall t | t in rest :: t.id != first.id
    ensures DistinctIds([first] + rest)
  {
  }

  lemma {:induction false} SelectedOnce(rows: seq<Template>, keep: Template -> bool)
    requires DistinctIds(rows)
    ensures DistinctIds(Select(rows, keep))
  {
    if rows != [] {
      SelectedOnce(rows[1..], keep);
      var rest := Select(rows[1..], keep);
      forall t | t in rest ensures t.id != rows[0].id {
        var k :| 0 <= k < |rows[1..]| && rows[1..][k] == t;
        assert rows[k + 1] == t;
      }
      OneInFront(rows[0], rest);
      assert [] + rest == rest;
    }
  }

  /** No template is listed twice. */
  lemma ListedOnce(c: Catalog, clientAppId: Id)
    requires Constrained(c)
    ensures DistinctIds(GetClientAvailableTemplates(c, clientAppId))
  {
    forall keep: Template -> bool
      ensures DistinctIds(Select(c.templates, keep))
    {
      SelectedOnce(c.templates, keep);
    }
  }
}
