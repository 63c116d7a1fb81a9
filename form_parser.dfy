/**
 * The per-form metadata extractor. The XML tokenizer is outside the model:
 * it is represented by the sequence of events it emits for one form. The
 * parser keeps a path cursor, the metadata found so far and a flag telling
 * whether the form refers to external media; at the end of the stream the
 * hash and the URLs are filled in.
 */
module FormParser {
  import opened Wrappers
  import opened Chars
  import Path
  import Template

  /** The options of one invocation, after the caller's options are merged onto the defaults. */
  datatype Config = Config(
    namePath: string,             // position of the element whose text is the form name
    instancePath: string,         // position of the element whose attributes hold id and version
    downloadUrl: Option<string>,  // download URL template
    manifestUrl: Option<string>)  // manifest URL template

  /** The default positions, with no URL template configured. */
  const Defaults := Config("/h:html/h:head/h:title", "/h:html/h:head/model/instance", None, None)

  /** Name given to a form whose title element holds empty text. */
  const UnnamedForm := "Unnamed Form"

  /** Why the pipeline of one form failed. */
  datatype ParseError =
    | Malformed(reason: string)      // the tokenizer rejected the document
    | StreamFailure(reason: string)  // the byte stream reported an error

  /** What the tokenizer (or the byte stream under it) reports, in order. */
  datatype Event =
    | Start(tag: string, attrs: map<string, string>)
    | End(tag: string)
    | Text(text: string)
    | Fail(error: ParseError)

  /** The parser's state between two events. */
  datatype ParseState = ParseState(
    path: string,
    formId: Option<string>,
    version: Option<string>,
    name: Option<string>,
    hasAttachments: bool)

  const Initial := ParseState("", None, None, None, false)

  /** The record emitted for one form. */
  datatype FormMeta = FormMeta(
    formId: Option<string>,
    version: Option<string>,
    name: Option<string>,
    hash: string,
    downloadUrl: Option<string>,
    manifestUrl: Option<string>)

  /**
   * One form as it reaches the parser: the raw chunks of its byte stream,
   * the events the tokenizer emits for those bytes, and the URL the stream
   * was fetched from, if it carries one.
   */
  datatype FormInput = FormInput(chunks: seq<seq<bv8>>, events: seq<Event>, origin: Option<string>)

  /** A JavaScript value that is truthy: present and not the empty string. */
  predicate Present(o: Option<string>) {
    o.Some? && o.value != ""
  }

  /** An attribute's value, with a missing attribute read as the empty string. */
  function Attr(attrs: map<string, string>, key: string): string {
    if key in attrs then attrs[key] else ""
  }

  /** The form id an instance element yields: its `id` attribute, or else its tag name. */
  function IdOf(tag: string, attrs: map<string, string>): (r: string)
    ensures Attr(attrs, "id") != "" ==> r == attrs["id"]
    ensures Attr(attrs, "id") == "" ==> r == tag
    ensures r == "" ==> tag == ""
  {
    if Attr(attrs, "id") != "" then Attr(attrs, "id") else tag
  }

  /** The text a form id becomes inside a URL; an absent id reads as "undefined". */
  function IdText(formId: Option<string>): string {
    match formId
    case Some(id) => id
    case None => "undefined"
  }

  /** The default media pattern /jr:\/\/(images|audio|video)/i. */
  predicate MediaRef(text: string) {
    ContainsFold(text, "jr://images") || ContainsFold(text, "jr://audio") || ContainsFold(text, "jr://video")
  }

  /** The effect of one event on the parser's state. */
  function Step(cfg: Config, st: ParseState, ev: Event): ParseState {
    match ev
    case Start(tag, attrs) =>
      var claim := st.path == cfg.instancePath && !Present(st.formId);
      st.(path := Path.Push(st.path, tag),
          formId := if claim then Some(IdOf(tag, attrs)) else st.formId,
          version := if claim && Attr(attrs, "version") != "" then Some(Attr(attrs, "version")) else st.version)
    case End(tag) =>
      st.(path := Path.Pop(st.path, tag))
    case Text(text) =>
      st.(name := if st.path == cfg.namePath && !Present(st.name)
                  then Some(if text != "" then text else UnnamedForm)
                  else st.name,
          hasAttachments := st.hasAttachments || MediaRef(text))
    case Fail(_) =>
      st
  }

  /** The state after a sequence of events. */
  function Fold(cfg: Config, st: ParseState, evs: seq<Event>): ParseState
    decreases |evs|
  {
    if evs == [] then st else Fold(cfg, Step(cfg, st, evs[0]), evs[1..])
  }

  /** The first failure among the events, if any. */
  function FirstFailure(evs: seq<Event>): (r: Option<ParseError>)
    ensures r.None? <==> forall k :: 0 <= k < |evs| ==> !evs[k].Fail?
    ensures r.Some? ==> exists i :: 0 <= i < |evs| && evs[i] == Fail(r.value) && NoFailureBefore(evs, i)
  {
    if evs == [] then None
    else if evs[0].Fail? then
      assert NoFailureBefore(evs, 0);
      Some(evs[0].error)
    else
      var r := FirstFailure(evs[1..]);
      assert forall k :: 1 <= k < |evs| ==> evs[k] == evs[1..][k - 1];
      if r.Some? then
        var i :| 0 <= i < |evs| - 1 && evs[1..][i] == Fail(r.value) && NoFailureBefore(evs[1..], i);
        assert evs[i + 1] == Fail(r.value) && NoFailureBefore(evs, i + 1);
        r
      else r
  }

  predicate NoFailureBefore(evs: seq<Event>, i: int)
    requires i <= |evs|
  {
    forall k :: 0 <= k < i ==> !evs[k].Fail?
  }

  /** All the bytes of a stream, in order. */
  function Concat(chunks: seq<seq<bv8>>): seq<bv8> {
    if chunks == [] then [] else Concat(chunks[..|chunks| - 1]) + chunks[|chunks| - 1]
  }

  /**
   * The record emitted at the end of the stream. The download URL comes from
   * its template when one is configured, else from the stream's origin; the
   * manifest URL is given only to a form that refers to media, and only when
   * its template is configured.
   */
  function Finalize(cfg: Config, st: ParseState, origin: Option<string>, hex: string): FormMeta {
    var downloadUrl :=
      if Present(cfg.downloadUrl) then Some(Template.Substitute(cfg.downloadUrl.value, IdText(st.formId)))
      else if Present(origin) then origin
      else None;
    var manifestUrl :=
      if st.hasAttachments && Present(cfg.manifestUrl) then Some(Template.Substitute(cfg.manifestUrl.value, IdText(st.formId)))
      else None;
    FormMeta(st.formId, st.version, st.name, "md5:" + hex, downloadUrl, manifestUrl)
  }

  /**
   * What parsing one form yields: the first failure, or the finalized record
   * of the state after all events. `md5Hex` stands for the hex digest of the
   * hash primitive.
   */
  function Outcome(cfg: Config, md5Hex: seq<bv8> -> string, form: FormInput): Result<FormMeta, ParseError> {
    match FirstFailure(form.events)
    case Some(e) => Err(e)
    case None => Ok(Finalize(cfg, Fold(cfg, Initial, form.events), form.origin, md5Hex(Concat(form.chunks))))
  }

  /** The event handlers of one parse, with the state they update in place. */
  class Parser {
    const cfg: Config
    var path: string
    var formId: Option<string>
    var version: Option<string>
    var name: Option<string>
    var hasAttachments: bool

    function State(): ParseState
      reads this
    {
      ParseState(path, formId, version, name, hasAttachments)
    }

    constructor (cfg: Config)
      ensures this.cfg == cfg && State() == Initial
    {
      this.cfg := cfg;
      path, formId, version, name, hasAttachments := "", None, None, None, false;
    }

    /** Element-open: the first element opened at the instance path supplies the id and version. */
    method OnStart(tag: string, attrs: map<string, string>)
      modifies this
      ensures State() == Step(cfg, old(State()), Start(tag, attrs))
    {
      if path == cfg.instancePath && !Present(formId) {
        formId := Some(IdOf(tag, attrs));
        if Attr(attrs, "version") != "" {
          version := Some(Attr(attrs, "version"));
        }
      }
      path := Path.Push(path, tag);
    }

    /** Element-close: drop a trailing `/tag` from the path, if there is one. */
    method OnEnd(tag: string)
      modifies this
      ensures State() == Step(cfg, old(State()), End(tag))
    {
      path := Path.Pop(path, tag);
    }

    /** Text: the first text at the name path names the form; media references raise the flag. */
    method OnText(text: string)
      modifies this
      ensures State() == Step(cfg, old(State()), Text(text))
    {
      if path == cfg.namePath && !Present(name) {
        name := Some(if text != "" then text else UnnamedForm);
      }
      if MediaRef(text) {
        hasAttachments := true;
      }
    }

    /** Passes an event to the handler registered for its kind. */
    method Handle(ev: Event)
      requires !ev.Fail?
      modifies this
      ensures State() == Step(cfg, old(State()), ev)
    {
      match ev {
        case Start(tag, attrs) => OnStart(tag, attrs);
        case End(tag) => OnEnd(tag);
        case Text(text) => OnText(text);
      }
    }

    /**
     * Hands the events to their handlers in order, stopping at the first
     * failure, which is returned; without one, every event has been handled.
     */
    method Run(events: seq<Event>) returns (failure: Option<ParseError>)
      modifies this
      ensures failure == FirstFailure(events)
      ensures failure.None? ==> State() == Fold(cfg, old(State()), events)
    {
      ghost var st0 := State();
      var i := 0;
      while i < |events|
        invariant 0 <= i <= |events|
        invariant NoFailureBefore(events, i)
        invariant State() == Fold(cfg, st0, events[..i])
      {
        if events[i].Fail? {
          FailureAt(events, i);
          return Some(events[i].error);
        }
        Handle(events[i]);
        assert events[..i + 1] == events[..i] + [events[i]];
        FoldSnoc(cfg, st0, events[..i], events[i]);
        i := i + 1;
      }
      assert events[..i] == events;
      return None;
    }

    /** End of stream: hash and URLs complete the record. */
    method Finish(origin: Option<string>, hex: string) returns (meta: FormMeta)
      ensures meta == Finalize(cfg, State(), origin, hex)
    {
      var downloadUrl: Option<string> := None;
      if Present(cfg.downloadUrl) {
        downloadUrl := Some(Template.Substitute(cfg.downloadUrl.value, IdText(formId)));
      } else if Present(origin) {
        downloadUrl := origin;
      }
      var manifestUrl: Option<string> := None;
      if hasAttachments && Present(cfg.manifestUrl) {
        manifestUrl := Some(Template.Substitute(cfg.manifestUrl.value, IdText(formId)));
      }
      meta := FormMeta(formId, version, name, "md5:" + hex, downloadUrl, manifestUrl);
    }
  }

  /** Folding one more event onto a prefix is one more step. */
  lemma {:induction false} FoldSnoc(cfg: Config, st: ParseState, evs: seq<Event>, ev: Event)
    ensures Fold(cfg, st, evs + [ev]) == Step(cfg, Fold(cfg, st, evs), ev)
    decreases |evs|
  {
    if evs == [] {
      assert [] + [ev] == [ev];
    } else {
      assert (evs + [ev])[1..] == evs[1..] + [ev];
      FoldSnoc(cfg, Step(cfg, st, evs[0]), evs[1..], ev);
    }
  }

  /** A failure preceded by none is the one reported. */
  lemma FailureAt(evs: seq<Event>, i: nat)
    requires i < |evs| && evs[i].Fail? && NoFailureBefore(evs, i)
    ensures FirstFailure(evs) == Some(evs[i].error)
  {
    var r := FirstFailure(evs);
    var j :| 0 <= j < |evs| && evs[j] == Fail(r.value) && NoFailureBefore(evs, j);
    assert j == i;
  }

  /** Feeds every raw chunk of the stream, in order, to the hash. */
  method FeedHash(chunks: seq<seq<bv8>>) returns (bytes: seq<bv8>)
    ensures bytes == Concat(chunks)
  {
    bytes := [];
    var j := 0;
    while j < |chunks|
      invariant 0 <= j <= |chunks|
      invariant bytes == Concat(chunks[..j])
    {
      assert chunks[..j + 1][..j] == chunks[..j];
      bytes := bytes + chunks[j];
      j := j + 1;
    }
    assert chunks[..j] == chunks;
  }

  /**
   * Parses one form: the hash is fed every raw chunk, the handlers every
   * event, and the first failure ends the parse with that error.
   */
  method ParseForm(cfg: Config, md5Hex: seq<bv8> -> string, form: FormInput)
    returns (r: Result<FormMeta, ParseError>)
    ensures r == Outcome(cfg, md5Hex, form)
  {
    var bytes := FeedHash(form.chunks);
    var p := new Parser(cfg);
    var failure := p.Run(form.events);
    if failure.Some? {
      return Err(failure.value);
    }
    var meta := p.Finish(form.origin, md5Hex(bytes));
    r := Ok(meta);
  }
}
