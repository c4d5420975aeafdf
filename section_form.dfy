/** The admin form that creates or edits a home-page section
    (components/admin/SectionForm.tsx): the slug it derives from the name,
    the display-order field, the request it sends on submit and the error it
    shows. The server's reply is an argument of `Submit`. */
module SectionForm {
  import opened Wrappers
  import opened Domain
  import Text
  import Seqs
  import Url
  import Sections
  import ProductSelector

  // ---------------------------------------------------------------------------
  // Slug derivation

  /** The characters a slug keeps as they are: `[a-z0-9]`. */
  predicate IsSlugChar(c: char) {
    'a' <= c <= 'z' || '0' <= c <= '9'
  }

  /** A well-formed slug: letters, digits and single dashes between them. */
  predicate IsSlug(s: string) {
    (forall i :: 0 <= i < |s| ==> IsSlugChar(s[i]) || s[i] == '-') &&
    (s != "" ==> s[0] != '-' && s[|s| - 1] != '-') &&
    (forall i :: 0 <= i < |s| - 1 ==> !(s[i] == '-' && s[i + 1] == '-'))
  }

  /** The global replacement of `[^a-z0-9]+` by `-`: each maximal run of other
      characters becomes one dash. `inRun` says whether the character before
      `s` belonged to such a run. */
  function Collapse(s: string, inRun: bool): (r: string)
    ensures forall i :: 0 <= i < |r| ==> IsSlugChar(r[i]) || r[i] == '-'
    ensures forall i :: 0 <= i < |r| - 1 ==> !(r[i] == '-' && r[i + 1] == '-')
    ensures inRun && r != "" ==> r[0] != '-'
    decreases |s|
  {
    if s == [] then []
    else if IsSlugChar(s[0]) then [s[0]] + Collapse(s[1..], false)
    else if inRun then Collapse(s[1..], true)
    else "-" + Collapse(s[1..], true)
  }

  /** The letters and digits pass the replacement unchanged and in order. */
  lemma {:induction false} CollapseKeepsLettersAndDigits(s: string, inRun: bool)
    ensures Seqs.Filter(Collapse(s, inRun), IsSlugChar) == Seqs.Filter(s, IsSlugChar)
    decreases |s|
  {
    if s != [] {
      CollapseKeepsLettersAndDigits(s[1..], !IsSlugChar(s[0]));
      var rest := Collapse(s[1..], !IsSlugChar(s[0]));
      if IsSlugChar(s[0]) {
        assert Collapse(s, inRun) == [s[0]] + rest;
        assert ([s[0]] + rest)[1..] == rest;
      } else if !inRun {
        assert Collapse(s, inRun) == "-" + rest;
        assert ("-" + rest)[1..] == rest;
      }
    }
  }

  /** A well-formed slug is its own replacement. */
  lemma {:induction false} CollapseFixed(s: string, inRun: bool)
    requires forall i :: 0 <= i < |s| ==> IsSlugChar(s[i]) || s[i] == '-'
    requires forall i :: 0 <= i < |s| - 1 ==> !(s[i] == '-' && s[i + 1] == '-')
    requires inRun && s != "" ==> s[0] != '-'
    requires !inRun && s != "" && s[0] == '-' ==> |s| == 1 || s[1] != '-'
    ensures Collapse(s, inRun) == s
    decreases |s|
  {
    if s != [] {
      CollapseFixed(s[1..], !IsSlugChar(s[0]));
      assert s == [s[0]] + s[1..];
    }
  }

  /** The replacement of `(^-|-$)` by nothing: one leading and one trailing dash go. */
  function StripEdges(s: string): string {
    var a := if s != "" && s[0] == '-' then s[1..] else s;
    if a != "" && a[|a| - 1] == '-' then a[..|a| - 1] else a
  }

  /** The slug derived from a name: lower-case, runs of other characters to
      one dash, no dash at either end. */
  function Slugify(name: string): (r: string)
    ensures IsSlug(r)
  {
    StripEdges(Collapse(Text.ToLower(name), false))
  }

  /** The slug keeps exactly the letters and digits of the lower-cased name,
      in their order. */
  lemma SlugifyKeepsLettersAndDigits(name: string)
    ensures Seqs.Filter(Slugify(name), IsSlugChar) == Seqs.Filter(Text.ToLower(name), IsSlugChar)
  {
    CollapseKeepsLettersAndDigits(Text.ToLower(name), false);
    StripEdgesKeepsLettersAndDigits(Collapse(Text.ToLower(name), false));
  }

  /** Dropping an edge dash drops no letter or digit. */
  lemma StripEdgesKeepsLettersAndDigits(c: string)
    ensures Seqs.Filter(StripEdges(c), IsSlugChar) == Seqs.Filter(c, IsSlugChar)
  {
    var a := if c != "" && c[0] == '-' then c[1..] else c;
    assert Seqs.Filter(a, IsSlugChar) == Seqs.Filter(c, IsSlugChar);
    if a != "" && a[|a| - 1] == '-' {
      var b := a[..|a| - 1];
      assert a == b + [a[|a| - 1]];
      Seqs.FilterAppend(b, [a[|a| - 1]], IsSlugChar);
      assert Seqs.Filter([a[|a| - 1]], IsSlugChar) == [];
      assert b + [] == b;
    }
  }

  /** The slug is empty exactly when the name has no letter or digit. */
  lemma SlugifyEmptyIff(name: string)
    ensures Slugify(name) == "" <==>
      forall i :: 0 <= i < |name| ==> !IsSlugChar(Text.LowerChar(name[i]))
  {
    var r := Slugify(name);
    var lower := Text.ToLower(name);
    SlugifyKeepsLettersAndDigits(name);
    if r == "" {
      assert Seqs.Filter(lower, IsSlugChar) == [];
      forall i | 0 <= i < |name| ensures !IsSlugChar(Text.LowerChar(name[i])) {
        assert lower[i] == Text.LowerChar(name[i]);
      }
    } else {
      assert r[0] in Seqs.Filter(r, IsSlugChar);
      var f := Seqs.Filter(lower, IsSlugChar);
      var i :| 0 <= i < |lower| && lower[i] == f[0];
      assert IsSlugChar(Text.LowerChar(name[i]));
    }
  }

  /** A well-formed slug derives to itself, so deriving twice changes nothing. */
  lemma {:induction false} SlugifyFixed(s: string)
    requires IsSlug(s)
    ensures Slugify(s) == s
  {
    forall i | 0 <= i < |s| ensures Text.LowerChar(s[i]) == s[i] {
      assert IsSlugChar(s[i]) || s[i] == '-';
    }
    assert Text.ToLower(s) == s;
    CollapseFixed(s, false);
  }

  lemma SlugifyIdempotent(name: string)
    ensures Slugify(Slugify(name)) == Slugify(name)
  {
    SlugifyFixed(Slugify(name));
  }

  // ---------------------------------------------------------------------------
  // Fields, request and reply

  /** JavaScript truthiness of a string that may be missing. */
  predicate Truthy(s: Option<string>) {
    s.Some? && s.value != ""
  }

  /** The display-order field: `parseInt` of the input, with NaN (None) and 0
      both read as 0. */
  function DisplayOrderInput(parsed: Option<int>): (r: int)
    ensures parsed.None? ==> r == 0
    ensures parsed.Some? ==> r == parsed.value
  {
    if parsed.Some? && parsed.value != 0 then parsed.value else 0
  }

  /** The request line of a save: an existing section is replaced by id, a
      new one is created on the collection (an empty id counts as none). */
  function SaveTarget(sectionId: Option<Sections.SectionId>): (r: (string, string))
    ensures Truthy(sectionId) <==> r.0 == "PUT"
    ensures !Truthy(sectionId) ==> r == ("POST", "/api/admin/sections")
  {
    if Truthy(sectionId) then ("PUT", "/api/admin/sections/" + sectionId.value)
    else ("POST", "/api/admin/sections")
  }

  /** The section's id is the last path segment of the update URL. */
  lemma {:induction false} SaveTargetNamesSection(id: Sections.SectionId)
    requires id != "" && '/' !in id
    ensures Url.SplitOn(SaveTarget(Some(id)).1, '/') == ["", "api", "admin", "sections", id]
  {
    var s3 := "sections" + ['/'] + id;
    var s2 := "admin" + ['/'] + s3;
    var s1 := "api" + ['/'] + s2;
    SaveUrlSegments(id);
    Url.SplitOnNoSeparator(id, '/');
    Url.SplitOnFirst("sections", '/', id);
    Url.SplitOnFirst("admin", '/', s3);
    Url.SplitOnFirst("api", '/', s2);
    Url.SplitOnFirst("", '/', s1);
  }

  /** The update URL spelled out segment by segment. */
  lemma SaveUrlSegments(id: Sections.SectionId)
    ensures "/api/admin/sections/" + id == "" + ['/'] + ("api" + ['/'] + ("admin" + ['/'] + ("sections" + ['/'] + id)))
  {
    assert "/api/admin/sections/" == ['/'] + "api" + ['/'] + "admin" + ['/'] + "sections" + ['/'];
    JoinSegments("api", "admin", "sections", id);
  }

  lemma JoinSegments(a: string, b: string, c: string, d: string)
    ensures ['/'] + a + ['/'] + b + ['/'] + c + ['/'] + d == "" + ['/'] + (a + ['/'] + (b + ['/'] + (c + ['/'] + d)))
  {
  }

  /** What the save request carries. */
  datatype SaveRequest = SaveRequest(
    httpMethod: string,
    url: string,
    name: string,
    description: string,
    slug: string,
    displayOrder: int,
    isActive: bool,
    productIds: seq<ProductId>)

  /** The outcome of the request: an answer with its `ok` flag and the
      `message` and `error` fields of its JSON body, or an exception (the
      request failed, or the body is not JSON) with its message. */
  datatype SaveReply =
    | Answered(ok: bool, message: Option<string>, errorText: Option<string>)
    | Threw(reason: string)

  const SaveFailed: string := "Failed to save section"
  const SaveFailedHint: string := "Failed to save section. Please make sure you have run the database migration."

  /** The error shown after a failed save: the answer's message, else its
      error, else a default; for an exception its message, else a longer
      default. */
  function FailureMessage(reply: SaveReply): (r: string)
    requires !(reply.Answered? && reply.ok)
    ensures r != ""
    ensures reply.Answered? ==>
      r == if Truthy(reply.message) then reply.message.value
           else if Truthy(reply.errorText) then reply.errorText.value
           else SaveFailed
    ensures reply.Threw? ==> r == if reply.reason != "" then reply.reason else SaveFailedHint
  {
    var thrown := match reply
      case Answered(_, message, errorText) =>
        if Truthy(message) then message.value else if Truthy(errorText) then errorText.value else SaveFailed
      case Threw(reason) => reason;
    if thrown != "" then thrown else SaveFailedHint
  }

  // ---------------------------------------------------------------------------
  // The form

  class Editor {
    const sectionId: Option<Sections.SectionId>
    var name: string
    var description: string
    var slug: string
    var displayOrder: int
    var isActive: bool
    var selected: seq<ProductId>
    var isSubmitting: bool
    var error: string
    var location: Option<string>

    /** The initial state: the edited section's fields, with a missing or
        empty value read as its default; a new section is active. */
    constructor (section: Option<Sections.Section>, selectedIds: seq<ProductId>)
      ensures sectionId == if section.Some? then Some(section.value.id) else None
      ensures name == (if section.Some? then section.value.name else "")
      ensures description == (if section.Some? && Truthy(section.value.description) then section.value.description.value else "")
      ensures slug == (if section.Some? then section.value.slug else "")
      ensures displayOrder == (if section.Some? then section.value.displayOrder else 0)
      ensures isActive == (section.None? || section.value.isActive)
      ensures selected == selectedIds && !isSubmitting && error == "" && location.None?
    {
      sectionId := if section.Some? then Some(section.value.id) else None;
      name := if section.Some? then section.value.name else "";
      description := if section.Some? && Truthy(section.value.description) then section.value.description.value else "";
      slug := if section.Some? then section.value.slug else "";
      displayOrder := if section.Some? then section.value.displayOrder else 0;
      isActive := section.None? || section.value.isActive;
      selected := selectedIds;
      isSubmitting := false;
      error := "";
      location := None;
    }

    /** Typing a name: the slug follows the name only while it is empty. */
    method NameChange(newName: string)
      modifies this`name, this`slug
      ensures name == newName
      ensures old(slug) != "" ==> slug == old(slug)
      ensures old(slug) == "" ==> slug == Slugify(newName)
    {
      name := newName;
      if slug == "" {
        slug := Slugify(newName);
      }
    }

    /** Typing a display order. */
    method DisplayOrderChange(parsed: Option<int>)
      modifies this`displayOrder
      ensures displayOrder == DisplayOrderInput(parsed)
    {
      displayOrder := DisplayOrderInput(parsed);
    }

    /** The product selector's edits reach the form's selection. */
    method ToggleProduct(id: ProductId)
      modifies this`selected
      ensures selected == ProductSelector.Toggle(old(selected), id)
    {
      selected := ProductSelector.Toggle(selected, id);
    }

    method RemoveProduct(id: ProductId)
      modifies this`selected
      ensures selected == ProductSelector.Remove(old(selected), id)
    {
      selected := ProductSelector.Remove(selected, id);
    }

    method MoveProduct(id: ProductId, dir: ProductSelector.Direction)
      modifies this`selected
      ensures selected == ProductSelector.Moved(old(selected), id, dir)
      ensures multiset(selected) == multiset(old(selected))
    {
      selected := ProductSelector.MoveProduct(selected, id, dir);
    }

    /** Submitting: the request carries the form's fields and selection; a
        success leaves for the section list with the form still marked as
        submitting, a failure shows an error and re-enables the form. */
    method Submit(reply: SaveReply) returns (request: SaveRequest)
      modifies this`isSubmitting, this`error, this`location
      ensures request.httpMethod == SaveTarget(sectionId).0 && request.url == SaveTarget(sectionId).1
      ensures request == SaveRequest(request.httpMethod, request.url, name, description, slug,
                                     displayOrder, isActive, selected)
      ensures var succeeded := reply.Answered? && reply.ok;
        (succeeded ==> isSubmitting && error == "" && location == Some("/admin/sections")) &&
        (!succeeded ==> !isSubmitting && error == FailureMessage(reply) && location == old(location))
    {
      error := "";
      isSubmitting := true;
      var (httpMethod, url) := SaveTarget(sectionId);
      request := SaveRequest(httpMethod, url, name, description, slug, displayOrder, isActive, selected);
      if reply.Answered? && reply.ok {
        location := Some("/admin/sections");
      } else {
        error := FailureMessage(reply);
        isSubmitting := false;
      }
    }
  }
}
