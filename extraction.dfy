/**
 * Properties of the extractor over whole event sequences: the path cursor
 * comes back after every well-nested element, the id, version and name come
 * from the first matching position and are never overwritten, the media flag
 * records whether any text refers to media, and the URLs follow their
 * precedence rules.
 */
module Extraction {
  import opened Wrappers
  import opened FormParser
  import Path
  import Template

  /** Folding a concatenation folds its parts one after the other. */
  lemma {:induction false} FoldAppend(cfg: Config, st: ParseState, a: seq<Event>, b: seq<Event>)
    ensures Fold(cfg, st, a + b) == Fold(cfg, Fold(cfg, st, a), b)
    decreases |a|
  {
    if a == [] {
      assert a + b == b;
    } else {
      assert (a + b)[0] == a[0] && (a + b)[1..] == a[1..] + b;
      FoldAppend(cfg, Step(cfg, st, a[0]), a[1..], b);
    }
  }

  /** A prefix of `k + 1` events is the first event followed by a prefix of the rest. */
  lemma FoldPrefixShift(cfg: Config, st: ParseState, evs: seq<Event>, k: nat)
    requires k < |evs|
    ensures Fold(cfg, st, evs[..k + 1]) == Fold(cfg, Step(cfg, st, evs[0]), evs[1..][..k])
  {
    assert evs[..k + 1][1..] == evs[1..][..k];
  }

  // ---------------------------------------------------------------------------
  // The path cursor

  /** An XML document as a tree; the tokenizer reports it as NodeEvents. */
  datatype Node =
    | Element(tag: string, attrs: map<string, string>, children: seq<Node>)
    | TextNode(text: string)

  /** The events of a well-nested document: each element opens, reports its children, and closes. */
  function NodeEvents(n: Node): seq<Event>
    decreases n, 1
  {
    match n
    case Element(tag, attrs, children) => [Start(tag, attrs)] + ChildEvents(children) + [End(tag)]
    case TextNode(text) => [Text(text)]
  }

  function ChildEvents(ns: seq<Node>): seq<Event>
    decreases ns, 0
  {
    if ns == [] then [] else NodeEvents(ns[0]) + ChildEvents(ns[1..])
  }

  /** Reading a whole element leaves the path cursor where it was before the element opened. */
  lemma {:induction false} ElementRestoresPath(cfg: Config, st: ParseState, n: Node)
    ensures Fold(cfg, st, NodeEvents(n)).path == st.path
    decreases n, 1
  {
    match n
    case Element(tag, attrs, children) =>
      var open := Step(cfg, st, Start(tag, attrs));
      FoldAppend(cfg, st, [Start(tag, attrs)], ChildEvents(children) + [End(tag)]);
      assert NodeEvents(n) == [Start(tag, attrs)] + (ChildEvents(children) + [End(tag)]);
      FoldAppend(cfg, open, ChildEvents(children), [End(tag)]);
      ChildrenRestorePath(cfg, open, children);
      Path.PopPush(st.path, tag, tag);
    case TextNode(text) =>
  }

  lemma {:induction false} ChildrenRestorePath(cfg: Config, st: ParseState, ns: seq<Node>)
    ensures Fold(cfg, st, ChildEvents(ns)).path == st.path
    decreases ns, 0
  {
    if ns != [] {
      FoldAppend(cfg, st, NodeEvents(ns[0]), ChildEvents(ns[1..]));
      ElementRestoresPath(cfg, st, ns[0]);
      ChildrenRestorePath(cfg, Fold(cfg, st, NodeEvents(ns[0])), ns[1..]);
    }
  }

  // ---------------------------------------------------------------------------
  // Form id and version

  /** Event `i` opens an element while the cursor is at the instance path. */
  predicate InstanceAt(cfg: Config, st: ParseState, evs: seq<Event>, i: nat)
    requires i < |evs|
  {
    evs[i].Start? && Fold(cfg, st, evs[..i]).path == cfg.instancePath
  }

  /** Once a non-empty form id is set, no later event changes the id or the version. */
  lemma {:induction false} FormIdFirstWins(cfg: Config, st: ParseState, evs: seq<Event>)
    requires Present(st.formId)
    ensures Fold(cfg, st, evs).formId == st.formId
    ensures Fold(cfg, st, evs).version == st.version
    decreases |evs|
  {
    if evs != [] {
      FormIdFirstWins(cfg, Step(cfg, st, evs[0]), evs[1..]);
    }
  }

  /** Without an element opened at the instance path, the id and the version stay as they were. */
  lemma {:induction false} NoInstanceKeepsFormId(cfg: Config, st: ParseState, evs: seq<Event>)
    requires forall k :: 0 <= k < |evs| ==> !InstanceAt(cfg, st, evs, k)
    ensures Fold(cfg, st, evs).formId == st.formId
    ensures Fold(cfg, st, evs).version == st.version
    decreases |evs|
  {
    if evs != [] {
      var next := Step(cfg, st, evs[0]);
      assert !InstanceAt(cfg, st, evs, 0);
      forall k | 0 <= k < |evs| - 1
        ensures !InstanceAt(cfg, next, evs[1..], k)
      {
        FoldPrefixShift(cfg, st, evs, k);
        assert !InstanceAt(cfg, st, evs, k + 1);
      }
      NoInstanceKeepsFormId(cfg, next, evs[1..]);
    }
  }

  /**
   * The first element opened at the instance path decides the form id (its
   * `id` attribute, else its tag name) and the version (its `version`
   * attribute, if non-empty); elements opened there later change neither.
   */
  lemma FormIdFromFirstInstance(cfg: Config, st: ParseState, evs: seq<Event>, i: nat)
    requires !Present(st.formId)
    requires i < |evs| && InstanceAt(cfg, st, evs, i)
    requires forall k :: 0 <= k < i ==> !InstanceAt(cfg, st, evs, k)
    requires IdOf(evs[i].tag, evs[i].attrs) != ""
    ensures Fold(cfg, st, evs).formId == Some(IdOf(evs[i].tag, evs[i].attrs))
    ensures Fold(cfg, st, evs).version
         == if Attr(evs[i].attrs, "version") != "" then Some(Attr(evs[i].attrs, "version")) else st.version
  {
    var before := evs[..i];
    forall k | 0 <= k < i
      ensures !InstanceAt(cfg, st, before, k)
    {
      assert before[..k] == evs[..k];
      assert !InstanceAt(cfg, st, evs, k);
    }
    NoInstanceKeepsFormId(cfg, st, before);
    var reached := Fold(cfg, st, before);
    var claimed := Step(cfg, reached, evs[i]);
    FormIdFirstWins(cfg, claimed, evs[i + 1..]);
    assert evs == before + evs[i..];
    FoldAppend(cfg, st, before, evs[i..]);
    assert evs[i..][1..] == evs[i + 1..];
  }

  // ---------------------------------------------------------------------------
  // Form name

  /** Event `i` is text while the cursor is at the name path. */
  predicate TitleAt(cfg: Config, st: ParseState, evs: seq<Event>, i: nat)
    requires i < |evs|
  {
    evs[i].Text? && Fold(cfg, st, evs[..i]).path == cfg.namePath
  }

  /** Once a non-empty name is set, no later event changes it. */
  lemma {:induction false} NameFirstWins(cfg: Config, st: ParseState, evs: seq<Event>)
    requires Present(st.name)
    ensures Fold(cfg, st, evs).name == st.name
    decreases |evs|
  {
    if evs != [] {
      NameFirstWins(cfg, Step(cfg, st, evs[0]), evs[1..]);
    }
  }

  /** Without text at the name path, the name stays as it was. */
  lemma {:induction false} NoTitleKeepsName(cfg: Config, st: ParseState, evs: seq<Event>)
    requires forall k :: 0 <= k < |evs| ==> !TitleAt(cfg, st, evs, k)
    ensures Fold(cfg, st, evs).name == st.name
    decreases |evs|
  {
    if evs != [] {
      var next := Step(cfg, st, evs[0]);
      assert !TitleAt(cfg, st, evs, 0);
      forall k | 0 <= k < |evs| - 1
        ensures !TitleAt(cfg, next, evs[1..], k)
      {
        FoldPrefixShift(cfg, st, evs, k);
        assert !TitleAt(cfg, st, evs, k + 1);
      }
      NoTitleKeepsName(cfg, next, evs[1..]);
    }
  }

  /**
   * The first text at the name path names the form, with empty text giving
   * the placeholder name; later text there does not rename it.
   */
  lemma NameFromFirstTitle(cfg: Config, st: ParseState, evs: seq<Event>, i: nat)
    requires !Present(st.name)
    requires i < |evs| && TitleAt(cfg, st, evs, i)
    requires forall k :: 0 <= k < i ==> !TitleAt(cfg, st, evs, k)
    ensures Fold(cfg, st, evs).name == Some(if evs[i].text != "" then evs[i].text else UnnamedForm)
  {
    var before := evs[..i];
    forall k | 0 <= k < i
      ensures !TitleAt(cfg, st, before, k)
    {
      assert before[..k] == evs[..k];
      assert !TitleAt(cfg, st, evs, k);
    }
    NoTitleKeepsName(cfg, st, before);
    var named := Step(cfg, Fold(cfg, st, before), evs[i]);
    NameFirstWins(cfg, named, evs[i + 1..]);
    assert evs == before + evs[i..];
    FoldAppend(cfg, st, before, evs[i..]);
    assert evs[i..][1..] == evs[i + 1..];
  }

  // ---------------------------------------------------------------------------
  // Media references

  /** The event is text that refers to external media. */
  predicate MediaText(ev: Event) {
    ev.Text? && MediaRef(ev.text)
  }

  /**
   * The media flag ends up set exactly when it was set already or some text
   * event, anywhere in the document, refers to media; in particular it is
   * never cleared.
   */
  lemma {:induction false} AttachmentsIff(cfg: Config, st: ParseState, evs: seq<Event>)
    ensures Fold(cfg, st, evs).hasAttachments
        <==> st.hasAttachments || exists i :: 0 <= i < |evs| && MediaText(evs[i])
    decreases |evs|
  {
    if evs != [] {
      AttachmentsIff(cfg, Step(cfg, st, evs[0]), evs[1..]);
      assert forall i :: 1 <= i < |evs| ==> evs[i] == evs[1..][i - 1];
      if exists i :: 0 <= i < |evs| - 1 && MediaText(evs[1..][i]) {
        var i :| 0 <= i < |evs| - 1 && MediaText(evs[1..][i]);
        assert MediaText(evs[i + 1]);
      }
    }
  }

  // ---------------------------------------------------------------------------
  // The finalized record

  /**
   * A configured download template wins over the stream's origin; with no
   * template the origin is used verbatim; with neither there is no download
   * URL.
   */
  lemma DownloadUrlPrecedence(cfg: Config, md5Hex: seq<bv8> -> string, form: FormInput)
    requires Outcome(cfg, md5Hex, form).Ok?
    ensures var m := Outcome(cfg, md5Hex, form).value;
      && (Present(cfg.downloadUrl) ==> m.downloadUrl == Some(Template.Substitute(cfg.downloadUrl.value, IdText(m.formId))))
      && (!Present(cfg.downloadUrl) && Present(form.origin) ==> m.downloadUrl == form.origin)
      && (!Present(cfg.downloadUrl) && !Present(form.origin) ==> m.downloadUrl.None?)
  {
  }

  /**
   * The defaults configure no URL template: a form's download URL is then
   * the stream's origin, if it has one, and no form gets a manifest URL.
   */
  lemma DefaultsUseOrigin(md5Hex: seq<bv8> -> string, form: FormInput)
    requires Outcome(Defaults, md5Hex, form).Ok?
    ensures var m := Outcome(Defaults, md5Hex, form).value;
      && m.downloadUrl == (if Present(form.origin) then form.origin else None)
      && m.manifestUrl.None?
  {
  }

  /**
   * A form gets a manifest URL exactly when a manifest template is configured
   * and some text in the form refers to external media; the URL is then the
   * template with the form's id substituted.
   */
  lemma ManifestUrlIffMedia(cfg: Config, md5Hex: seq<bv8> -> string, form: FormInput)
    requires Outcome(cfg, md5Hex, form).Ok?
    ensures Outcome(cfg, md5Hex, form).value.manifestUrl.Some?
        <==> Present(cfg.manifestUrl) && exists i :: 0 <= i < |form.events| && MediaText(form.events[i])
    ensures var m := Outcome(cfg, md5Hex, form).value;
      m.manifestUrl.Some? ==> m.manifestUrl == Some(Template.Substitute(cfg.manifestUrl.value, IdText(m.formId)))
  {
    AttachmentsIff(cfg, Initial, form.events);
  }

  /**
   * With a download template of the form `prefix${formId}suffix`, the
   * download URL carries the id of the first element opened at the instance
   * path.
   */
  lemma DownloadUrlOfFirstInstance(cfg: Config, md5Hex: seq<bv8> -> string, form: FormInput,
                                   prefix: string, suffix: string, i: nat)
    requires Outcome(cfg, md5Hex, form).Ok?
    requires cfg.downloadUrl == Some(prefix + "${formId}" + suffix) && '$' !in prefix
    requires i < |form.events| && InstanceAt(cfg, Initial, form.events, i)
    requires forall k :: 0 <= k < i ==> !InstanceAt(cfg, Initial, form.events, k)
    requires IdOf(form.events[i].tag, form.events[i].attrs) != ""
    ensures Outcome(cfg, md5Hex, form).value.downloadUrl
         == Some(prefix + IdOf(form.events[i].tag, form.events[i].attrs) + suffix)
  {
    FormIdFromFirstInstance(cfg, Initial, form.events, i);
    Template.SubstitutePlainPrefix(prefix, suffix, IdOf(form.events[i].tag, form.events[i].attrs));
  }

  /**
   * With a manifest template of the form `prefix${formId}suffix`, a form that
   * refers to media gets a manifest URL carrying the id of the first element
   * opened at the instance path.
   */
  lemma ManifestUrlOfFirstInstance(cfg: Config, md5Hex: seq<bv8> -> string, form: FormInput,
                                   prefix: string, suffix: string, i: nat, j: nat)
    requires Outcome(cfg, md5Hex, form).Ok?
    requires cfg.manifestUrl == Some(prefix + "${formId}" + suffix) && '$' !in prefix
    requires i < |form.events| && InstanceAt(cfg, Initial, form.events, i)
    requires forall k :: 0 <= k < i ==> !InstanceAt(cfg, Initial, form.events, k)
    requires IdOf(form.events[i].tag, form.events[i].attrs) != ""
    requires j < |form.events| && MediaText(form.events[j])
    ensures Outcome(cfg, md5Hex, form).value.manifestUrl
         == Some(prefix + IdOf(form.events[i].tag, form.events[i].attrs) + suffix)
  {
    ManifestUrlIffMedia(cfg, md5Hex, form);
    FormIdFromFirstInstance(cfg, Initial, form.events, i);
    Template.SubstitutePlainPrefix(prefix, suffix, IdOf(form.events[i].tag, form.events[i].attrs));
  }

  /**
   * The hash depends only on the bytes of the stream: two forms whose chunks
   * concatenate to the same bytes get the same hash, however the bytes were
   * split and whatever the parser made of them.
   */
  lemma HashIsContentAddressed(cfg: Config, md5Hex: seq<bv8> -> string, f: FormInput, g: FormInput)
    requires Outcome(cfg, md5Hex, f).Ok? && Outcome(cfg, md5Hex, g).Ok?
    requires Concat(f.chunks) == Concat(g.chunks)
    ensures Outcome(cfg, md5Hex, f).value.hash == Outcome(cfg, md5Hex, g).value.hash == "md5:" + md5Hex(Concat(f.chunks))
  {
  }
}
