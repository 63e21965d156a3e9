/**
 Runtime settings: the merge of a PUT into the stored dictionary, the masking of secrets, and the in-process
 cache in front of the database.
 */
module Settings {
  import opened Common

  /** A JSON value. */
  datatype Value =
    | Null
    | Flag(b: bool)
    | Number(n: real)
    | Text(s: string)
    | List(items: seq<Value>)
    | Object(fields: seq<(string, Value)>)

  type Dict = map<string, Value>

  const SECRET_FIELDS: set<string> := {"api_key", "password", "auth_token", "client_secret", "access_token"}
  const MASK := Text("****")

  /** The fields of a key with their defaults, in order. */
  type Template = seq<(string, Value)>

  function Fields(template: Template): (fs: set<string>)
    ensures forall f :: f in fs <==> exists i :: 0 <= i < |template| && template[i].0 == f
  {
    set i | 0 <= i < |template| :: template[i].0
  }

  /** A dictionary literal: no field twice. */
  ghost predicate IsTemplate(template: Template) {
    forall i, j :: 0 <= i < j < |template| ==> template[i].0 != template[j].0
  }

  /** What Python takes for true. */
  predicate Truthy(v: Value) {
    match v
    case Null => false
    case Flag(b) => b
    case Number(n) => n != 0.0
    case Text(s) => s != ""
    case List(items) => items != []
    case Object(fields) => fields != []
  }

  function MaskSecrets(data: Dict): Dict {
    map k | k in data :: if k in SECRET_FIELDS && Truthy(data[k]) then MASK else data[k]
  }

  /** Exactly these fields are shown as "****", when Python takes their value for true. */
  lemma MaskTable(data: Dict, k: string)
    requires k in data
    ensures var secret := k == "api_key" || k == "password" || k == "auth_token" || k == "client_secret"
                          || k == "access_token";
            && MaskSecrets(data).Keys == data.Keys
            && MaskSecrets(data)[k] == if secret && !Falsy(data[k]) then Text("****") else data[k]
  {
  }

  predicate Falsy(v: Value) {
    v in {Null, Flag(false), Number(0.0), Text(""), List([]), Object([])}
  }

  /** A field sent as "****" that is to keep its stored value. */
  predicate Keeps(incoming: Dict, f: string) {
    f in incoming && f in SECRET_FIELDS && incoming[f] == MASK
  }

  /** The whole effect of a merge on one field. */
  ghost predicate MergesField(existing: Dict, incoming: Dict, template: Template, merged: Dict, f: string) {
    if exists i :: 0 <= i < |template| && template[i].0 == f then
      if f in incoming && !Keeps(incoming, f) then f in merged && merged[f] == incoming[f]
      else if f in existing then f in merged && merged[f] == existing[f]
      else if Keeps(incoming, f) then f !in merged
      else f in merged && exists i :: 0 <= i < |template| && template[i] == (f, merged[f])
    else if f in existing then f in merged && merged[f] == existing[f]
    else f !in merged
  }

  ghost predicate IsMerge(existing: Dict, incoming: Dict, template: Template, merged: Dict) {
    forall f: string :: MergesField(existing, incoming, template, merged, f)
  }

  /** The merge leaves no choice. */
  lemma MergeIsUnique(existing: Dict, incoming: Dict, template: Template, m: Dict, m': Dict)
    requires IsTemplate(template) && IsMerge(existing, incoming, template, m)
    requires IsMerge(existing, incoming, template, m')
    ensures m == m'
  {
    forall f: string ensures (f in m <==> f in m') && (f in m ==> m[f] == m'[f]) {
      assert MergesField(existing, incoming, template, m, f) && MergesField(existing, incoming, template, m', f);
    }
  }

  method MergeUpdate(existing: Dict, incoming: Dict, template: Template) returns (merged: Dict)
    requires IsTemplate(template)
    ensures IsMerge(existing, incoming, template, merged)
  {
    merged := existing;
    for i := 0 to |template|
      invariant forall f: string :: MergesField(existing, incoming, template[..i], merged, f)
    {
      var field, default := template[i].0, template[i].1;
      ghost var before := merged;
      assert MergesField(existing, incoming, template[..i], merged, field);
      if field in incoming {
        if !(field in SECRET_FIELDS && incoming[field] == MASK) {
          merged := merged[field := incoming[field]];
        }
      } else if field !in merged {
        merged := merged[field := default];
      }
      ghost var done := template[..i + 1];
      forall f: string ensures MergesField(existing, incoming, done, merged, f) {
        assert MergesField(existing, incoming, template[..i], before, f);
        OneMoreField(existing, incoming, template, i, before, merged, f);
      }
    }
    assert template[..|template|] == template;
  }

  lemma OneMoreField(existing: Dict, incoming: Dict, template: Template, i: nat, before: Dict, after: Dict, f: string)
    requires IsTemplate(template) && i < |template| && MergesField(existing, incoming, template[..i], before, f)
    requires var field, default := template[i].0, template[i].1;
             after == if Keeps(incoming, field) then before
                      else if field in incoming then before[field := incoming[field]]
                      else if field !in before then before[field := default] else before
    ensures MergesField(existing, incoming, template[..i + 1], after, f)
  {
  }

  // ---------------------------------------------------------------- laws

  /** Sending back what the API showed changes nothing, exactly when every field of the template is stored. */
  lemma MergeOfMaskedIff(e: Dict, template: Template, m: Dict)
    requires IsTemplate(template) && IsMerge(e, MaskSecrets(e), template, m)
    ensures m == e <==> Fields(template) <= e.Keys
  {
    forall f: string ensures f in e ==> f in m && m[f] == e[f] {
      assert MergesField(e, MaskSecrets(e), template, m, f);
    }
    if Fields(template) <= e.Keys {
      forall f | f in m ensures f in e {
        assert MergesField(e, MaskSecrets(e), template, m, f);
      }
      assert m.Keys == e.Keys;
    } else {
      var f :| f in Fields(template) && f !in e;
      assert MergesField(e, MaskSecrets(e), template, m, f);
      assert f in m;
    }
  }

  /** Repeating a PUT changes nothing. */
  lemma MergeTwice(e: Dict, incoming: Dict, template: Template, m: Dict, m': Dict)
    requires IsTemplate(template) && IsMerge(e, incoming, template, m) && IsMerge(m, incoming, template, m')
    ensures m' == m
  {
    forall f: string ensures (f in m' <==> f in m) && (f in m ==> m'[f] == m[f]) {
      assert MergesField(e, incoming, template, m, f) && MergesField(m, incoming, template, m', f);
    }
  }

  /** Fields outside the template are neither added, nor changed, nor dropped; no stored field is dropped. */
  lemma MergeTouchesOnlyTemplate(e: Dict, incoming: Dict, template: Template, m: Dict, f: string)
    requires IsMerge(e, incoming, template, m)
    ensures f !in Fields(template) ==> (f in m <==> f in e) && (f in e ==> m[f] == e[f])
    ensures f in e ==> f in m
    ensures f in e && Keeps(incoming, f) ==> m[f] == e[f]
  {
    assert MergesField(e, incoming, template, m, f);
  }

  /** What the API shows tells two dictionaries apart exactly by their fields, open values and empty secrets. */
  lemma MaskRevealsIff(a: Dict, b: Dict)
    ensures MaskSecrets(a) == MaskSecrets(b) <==>
              a.Keys == b.Keys
              && forall k :: k in a ==> a[k] == b[k] || (k in SECRET_FIELDS && Truthy(a[k]) && Truthy(b[k]))
  {
    assert MaskSecrets(a).Keys == a.Keys && MaskSecrets(b).Keys == b.Keys;
    if MaskSecrets(a) == MaskSecrets(b) {
      forall k | k in a ensures a[k] == b[k] || (k in SECRET_FIELDS && Truthy(a[k]) && Truthy(b[k])) {
        assert MaskSecrets(a)[k] == MaskSecrets(b)[k];
        assert Truthy(MASK);
      }
    }
  }

  /** _get_with_defaults: stored over defaults. */
  function WithDefaults(template: Template, stored: Dict): (d: Dict)
    requires IsTemplate(template)
    ensures Fields(template) <= d.Keys && forall f :: f in stored ==> f in d && d[f] == stored[f]
  {
    var defaults := map f | f in Fields(template) :: Default(template, f);
    defaults + stored
  }

  function Default(template: Template, f: string): Value
    requires f in Fields(template)
  {
    if template[|template| - 1].0 == f then template[|template| - 1].1
    else
      var init := template[..|template| - 1];
      assert f in Fields(init) by {
        var i :| 0 <= i < |template| && template[i].0 == f;
        assert init[i].0 == f;
      }
      Default(init, f)
  }

  /** A field GET has not found stored has the template's value, and no other field is shown. */
  lemma DefaultsAreTheTemplates(template: Template, stored: Dict, f: string)
    requires IsTemplate(template)
    ensures var d := WithDefaults(template, stored);
            && (f in d <==> f in stored || exists i :: 0 <= i < |template| && template[i].0 == f)
            && (f in d && f !in stored ==> exists i :: 0 <= i < |template| && template[i] == (f, d[f]))
  {
    if f in Fields(template) {
      DefaultIsInTemplate(template, f);
    }
  }

  lemma {:induction false} DefaultIsInTemplate(template: Template, f: string)
    requires f in Fields(template)
    ensures exists i :: 0 <= i < |template| && template[i] == (f, Default(template, f))
  {
    var last := |template| - 1;
    if template[last].0 == f {
      assert template[last] == (f, Default(template, f));
    } else {
      var init := template[..last];
      var k :| 0 <= k < |template| && template[k].0 == f;
      assert init[k].0 == f;
      DefaultIsInTemplate(init, f);
      var i :| 0 <= i < |init| && init[i] == (f, Default(init, f));
      assert template[i] == init[i];
    }
  }

  /** A PUT of what GET has answered stores what GET had read. */
  lemma PutOfGetChangesNothing(template: Template, stored: Dict, m: Dict)
    requires IsTemplate(template)
    requires IsMerge(WithDefaults(template, stored), MaskSecrets(WithDefaults(template, stored)), template, m)
    ensures m == WithDefaults(template, stored) && WithDefaults(template, m) == m
  {
    MergeOfMaskedIff(WithDefaults(template, stored), template, m);
    assert WithDefaults(template, m) == m;
  }
}
