/**
 * Prompt templates: `{key}` placeholder substitution, shared by the
 * configured templates of the dispatcher and by the versioned registry,
 * whose table of template rows grows by one row per `create`.
 */
module Prompts {
  import opened Wrappers
  import opened Php
  import opened PhpStrings
  import opened Routing

  /* ----------------------------------------------------------- substitution */

  /** `'{' . $key . '}'`. */
  function Placeholder(k: Key): (p: string)
    ensures p != []
  {
    "{" + KeyName(k) + "}"
  }

  /** Text without a `{` holds no placeholder, so replacing one changes nothing. */
  lemma NoBraceUnchanged(content: string, k: Key, rep: string)
    ensures (forall i :: 0 <= i < |content| ==> content[i] != '{') ==> ReplaceAll(content, Placeholder(k), rep) == content
  {
    var p := Placeholder(k);
    if forall i :: 0 <= i < |content| ==> content[i] != '{' {
      forall i: nat | i <= |content|
        ensures !OccursAt(p, content, i)
      {
        if i + |p| <= |content| {
          assert content[i..i + |p|][0] == content[i];
        }
      }
      ReplaceAbsent(content, p, rep);
    }
  }

  /** The template after `str_replace` of each variable's placeholder, in `vars` order. */
  function Substitute(content: string, vars: seq<Entry>): (r: string)
    ensures (forall i :: 0 <= i < |content| ==> content[i] != '{') ==> r == content
  {
    if vars == [] then content
    else
      var last := vars[|vars| - 1];
      NoBraceUnchanged(content, last.key, StringOf(last.val));
      ReplaceAll(Substitute(content, vars[..|vars| - 1]), Placeholder(last.key), StringOf(last.val))
  }

  /** The substitution loop: each variable in turn rewrites the text the previous ones left. */
  method Fill(template: string, vars: seq<Entry>) returns (content: string)
    ensures content == Substitute(template, vars)
  {
    content := template;
    for i := 0 to |vars|
      invariant content == Substitute(template, vars[..i])
    {
      assert vars[..i + 1][..i] == vars[..i];
      content := ReplaceAll(content, Placeholder(vars[i].key), StringOf(vars[i].val));
    }
    assert vars[..|vars|] == vars;
  }

  /** Substituting two lists of variables is substituting the first, then the second. */
  lemma {:induction false} SubstituteAppend(content: string, vs: seq<Entry>, ws: seq<Entry>)
    ensures Substitute(content, vs + ws) == Substitute(Substitute(content, vs), ws)
    decreases |ws|
  {
    if ws == [] {
      assert vs + ws == vs;
    } else {
      var init := ws[..|ws| - 1];
      assert (vs + ws)[..|vs + ws| - 1] == vs + init;
      SubstituteAppend(content, vs, init);
    }
  }

  /** A template in which no variable's placeholder occurs comes back unchanged; so does any template with no variables. */
  lemma {:induction false} SubstituteAbsent(content: string, vars: seq<Entry>)
    requires forall i :: 0 <= i < |vars| ==> !Occurs(Placeholder(vars[i].key), content)
    ensures Substitute(content, vars) == content
    decreases |vars|
  {
    if vars != [] {
      var init := vars[..|vars| - 1];
      SubstituteAbsent(content, init);
      ReplaceAbsent(content, Placeholder(vars[|vars| - 1].key), StringOf(vars[|vars| - 1].val));
    }
  }

  /* --------------------------------------------------------- the registry */

  /** A row of the `larai_prompts` table. */
  datatype Template = Template(name: string, version: nat, content: string, tags: seq<Entry>, isActive: bool)

  /** `max('version') ?? 0` over the rows named `name`. */
  function MaxVersion(rows: seq<Template>, name: string): (v: nat)
    ensures forall t :: t in rows && t.name == name ==> t.version <= v
    ensures v == 0 || exists t :: t in rows && t.name == name && t.version == v
  {
    if rows == [] then 0
    else
      var last := rows[|rows| - 1];
      var v := MaxVersion(rows[..|rows| - 1], name);
      assert rows == rows[..|rows| - 1] + [last];
      if last.name == name && last.version > v then last.version else v
  }

  /** `latest`: the active row named `name` with the highest version; of equals, the earliest row. */
  function Latest(rows: seq<Template>, name: string): (r: Option<Template>)
    ensures r.Some? ==> r.value in rows && r.value.name == name && r.value.isActive
    ensures r.Some? ==> forall t :: t in rows && t.name == name && t.isActive ==> t.version <= r.value.version
    ensures r.None? <==> forall t :: t in rows ==> !(t.name == name && t.isActive)
  {
    if rows == [] then None
    else
      var last := rows[|rows| - 1];
      var prev := Latest(rows[..|rows| - 1], name);
      assert rows == rows[..|rows| - 1] + [last];
      if last.name == name && last.isActive && (prev.None? || last.version > prev.value.version) then Some(last)
      else prev
  }

  /** The row `create` adds. */
  function Created(rows: seq<Template>, name: string, content: string, tags: seq<Entry>): Template {
    Template(name, MaxVersion(rows, name) + 1, content, tags, true)
  }

  /** No two rows of one name share a version. */
  predicate VersionsUnique(rows: seq<Template>) {
    forall i, j :: 0 <= i < j < |rows| && rows[i].name == rows[j].name ==> rows[i].version != rows[j].version
  }

  /** A created row is numbered above every earlier row of its name, so versions stay unique. */
  lemma CreatedIsNewest(rows: seq<Template>, name: string, content: string, tags: seq<Entry>)
    requires VersionsUnique(rows)
    ensures forall t :: t in rows && t.name == name ==> t.version < Created(rows, name, content, tags).version
    ensures VersionsUnique(rows + [Created(rows, name, content, tags)])
  {
    var rs := rows + [Created(rows, name, content, tags)];
    forall i, j | 0 <= i < j < |rs| && rs[i].name == rs[j].name
      ensures rs[i].version != rs[j].version
    {
      if j == |rows| {
        assert rs[i] in rows;
      }
    }
  }

  /** Creating a row for one name changes neither the numbering nor the latest row of another. */
  lemma CreateIsolated(rows: seq<Template>, name: string, other: string, content: string, tags: seq<Entry>)
    requires name != other
    ensures MaxVersion(rows + [Created(rows, name, content, tags)], other) == MaxVersion(rows, other)
    ensures Latest(rows + [Created(rows, name, content, tags)], other) == Latest(rows, other)
  {
    var rs := rows + [Created(rows, name, content, tags)];
    assert rs[..|rs| - 1] == rows;
  }

  /** Right after `create`, `latest` returns the created row. */
  lemma LatestAfterCreate(rows: seq<Template>, name: string, content: string, tags: seq<Entry>)
    ensures Latest(rows + [Created(rows, name, content, tags)], name) == Some(Created(rows, name, content, tags))
  {
    var rs := rows + [Created(rows, name, content, tags)];
    assert rs[..|rs| - 1] == rows;
    var prev := Latest(rows, name);
    if prev.Some? {
      assert prev.value.version <= MaxVersion(rows, name);
    }
  }

  /** The versioned template table. */
  class PromptRegistry {
    var rows: seq<Template>

    /** A registry over the rows the table already holds. */
    constructor (rows: seq<Template>)
      ensures this.rows == rows
    {
      this.rows := rows;
    }

    /** `create`: a new active row numbered one above the name's highest version. */
    method Create(name: string, content: string, tags: seq<Entry>) returns (t: Template)
      modifies this
      ensures t == Template(name, MaxVersion(old(rows), name) + 1, content, tags, true)
      ensures rows == old(rows) + [t]
    {
      var latest := MaxVersion(rows, name);
      t := Template(name, latest + 1, content, tags, true);
      rows := rows + [t];
    }

    /** `render`: the latest template with its placeholders substituted, or '' when there is none. */
    method Render(name: string, vars: seq<Entry>) returns (r: string)
      ensures Latest(rows, name).None? ==> r == ""
      ensures Latest(rows, name).Some? ==> r == Substitute(Latest(rows, name).value.content, vars)
    {
      var template := Latest(rows, name);
      if template.None? {
        return "";
      }
      r := Fill(template.value.content, vars);
    }
  }
}
