# openrosa-formlist: the per-form metadata extractor, in Dafny

`openrosa-formlist` turns a list of xForms (XML documents describing
data-collection forms) into one OpenRosa FormList document. For every form it
streams the XML through a tokenizer once and, while the bytes flow past,
extracts the form's id, version and name, hashes the raw bytes with MD5, and at
the end of the stream fills in a download URL and, for forms that refer to
external media, a manifest URL. The per-form records are then combined, in
input order, into the list; any failure means no list at all.

This project models that core:

- `wrappers.dfy` (`Wrappers`): `Option` and `Result`.
- `chars.dfy` (`Chars`): ASCII case folding as a regular expression with the
  `i` flag applies it, the characters `\s` matches, case-insensitive suffix
  and substring tests.
- `path.dfy` (`Path`): the slash-delimited path cursor. Opening `tag` appends
  `/tag`; closing `tag` removes a trailing `/tag` matched without regard to
  case, and leaves the cursor alone when it does not end that way.
- `template.dfy` (`Template`): the URL templates. `IsPlaceholder` defines the
  placeholder `${formId}` (white space allowed inside the braces) on its own
  terms; `Substitute` scans for the first placeholder and replaces it by the
  id; `SubstituteFirst` and `SubstituteNoPlaceholder` tie the two together.
  `Substitute` searches for the first placeholder index by index, as the
  regular expression engine does.
- `form_parser.dfy` (`FormParser`): the tokenizer's events (`Start`, `End`,
  `Text`, and `Fail` for a tokenizer or stream error; the end of the sequence
  is the end of the stream), the parser state, the
  step function `Step` and its fold `Fold`, the end-of-stream `Finalize`, and
  `Outcome`, the result for one form. The class `Parser` holds the state the
  JavaScript handlers update in place (path, id, version, name, media flag),
  with one method per event kind and `Run`, which hands them a form's events
  up to the first failure; `ParseForm` feeds a form's chunks to the hash and
  its events to a `Parser` and is proved to compute `Outcome`.
- `extraction.dfy` (`Extraction`): what the fold guarantees over whole event
  sequences.
- `form_list.dfy` (`FormList`): `Combine` and `CreateFormList`, the
  order-preserving combination of the per-form outcomes.

JavaScript truthiness is modelled as written: `!meta.formId` and `!meta.name`
hold for an absent or empty value, and a URL template or an origin URL counts
as configured only when present and non-empty (`FormParser.Present`). A form
id that was never found is substituted into a template as the text
`undefined`, as `String.prototype.replace` does with an `undefined`
replacement.

Three behaviours of the code may surprise a reader, and the model keeps them:
the name stays absent when the form has no text at the name path (it is given
the placeholder name only when that text is empty), the form id stays absent
when no element opens at the instance path, and the download URL stays absent
when neither a template nor an origin URL is available.

The lemmas about the form id assume, as XML guarantees, that the element
which supplies it has a non-empty name or a non-empty `id`; an empty id would
not count as set, and a later element could then replace it.

## Model

| member | source | states |
|---|---|---|
| Path.Push | index.js:105 | opening an element appends exactly `/tag`, verbatim, to the cursor and keeps what was there; the new cursor ends with that segment, so a matching close removes it again (`Path.PopPush`) |
| Path.Pop | index.js:108-111 | closing an element changes the cursor exactly when it ends with `/tag` (ignoring ASCII case), and then removes exactly that trailing segment; otherwise the cursor is left as it is (lenient, not a strict stack) |
| Path.PopPush | index.js:105-110 | opening `tag` and closing a tag equal to it up to ASCII case restores the cursor |
| Template.IsPlaceholder | index.js:30 | the language of `URL_RE` on its own terms: `${`, white space, `formId` (case-sensitive), white space, `}`; the scanner below is proved to agree with it |
| Template.SpaceRun | index.js:30 | the length of the leading run of `\s` characters: everything before it is white space, the next character is not |
| Template.PlaceholderLen | index.js:30 | a match of `URL_RE` anchored at the start of the text, with `\s*` greedy; a reported length is at least nine and within the text, and `PlaceholderLenSound`/`PlaceholderLenComplete` prove it finds exactly the placeholders |
| Template.PlaceholderLenSound | index.js:30 | any length the scanner reports is that of a placeholder at the start of the text |
| Template.PlaceholderLenComplete | index.js:30 | every placeholder the text starts with is found, with its exact length |
| Template.Substitute | index.js:133-138 | `template.replace(URL_RE, id)` with a non-global pattern: described by `SubstituteFirst` (the first placeholder is replaced, all else kept) and `SubstituteNoPlaceholder` (no placeholder, no change) |
| Template.SubstituteFrom | index.js:30 | the regular expression engine's left-to-right search for the first index where a match starts; `SearchSkips` proves it passes every index without one |
| Template.SearchSkips | index.js:30 | the search for the first match moves past every index at which no placeholder starts |
| Template.SubstituteNoPlaceholder | index.js:30 | a template with no placeholder is returned unchanged |
| Template.SubstituteFirst | index.js:133 | only the first placeholder `t[i..j]` is replaced: the result is `t[..i] + id + t[j..]`, every other character unchanged |
| Template.NoDollarNoPlaceholder | index.js:30 | text with no `$` holds no placeholder |
| Template.SubstitutePlainPrefix | test/test.js:25-27 | a template `prefix${formId}suffix` with no `$` in the prefix becomes `prefix + id + suffix` |
| FormParser.IdOf | index.js:102 | a non-empty `id` attribute wins; without one the tag name is used; the result is empty only for an empty tag name |
| FormParser.IdText | index.js:133 | the text an id becomes inside a URL, `undefined` for a form with no id; described by `DownloadUrlPrecedence` and `ManifestUrlIffMedia` |
| FormParser.MediaRef | index.js:21 | the default media pattern as a case-insensitive test for `jr://images`, `jr://audio` or `jr://video` anywhere in the text; described by `AttachmentsIff` |
| FormParser.Step | index.js:100-120 | the three handlers as one step on the parser state; described by the `Extraction` lemmas (path restoration, first-wins id, version and name, media flag) and by the `Parser` methods, each proved to have exactly its effect |
| FormParser.FirstFailure | index.js:122-128 | the failure reported is that of the first `Fail` event, and there is none exactly when no event fails |
| FormParser.Finalize | index.js:130-139 | the `end` handler; described by `DownloadUrlPrecedence`, `ManifestUrlIffMedia`, `HashIsContentAddressed` and `Parser.Finish` |
| FormParser.Outcome | index.js:93-141 | `parse` for one form: the first failure, or the finalized record of the state after all events; described by `ParseForm`, which computes it, and by the `Extraction` lemmas |
| FormParser.Parser.constructor | index.js:94-98 | a parse starts with an empty path, no id, version or name, and the media flag clear |
| FormParser.Parser.OnStart | index.js:100-106 | element-open appends `/tag` to the path; at the instance path, when no id is set yet, sets the id from `id` or the tag name and the version from a non-empty `version` |
| FormParser.Parser.OnEnd | index.js:108-111 | element-close pops a trailing `/tag` (case-insensitively) and changes nothing else |
| FormParser.Parser.OnText | index.js:113-120 | text at the name path names a still unnamed form (`Unnamed Form` for empty text); text matching the media pattern sets the flag |
| FormParser.Parser.Handle | index.js:100-120 | every non-failure event goes to the handler for its kind, with the effect of `Step` |
| FormParser.Parser.Finish | index.js:130-141 | the emitted record is `Finalize` of the current state: hash `md5:<hex>`, download and manifest URLs by precedence |
| FormParser.FeedHash | index.js:124-126 | feeding the chunks one by one gives the hash exactly their concatenation |
| FormParser.Parser.Run | index.js:100-128 | the events go to their handlers in order until the first failure, which is returned and is `FirstFailure` of the events; without a failure the new state is the fold of all events from the old one |
| FormParser.FailureAt | index.js:122-128 | a failure with none before it is the one the parse reports |
| FormParser.FoldSnoc | index.js:100-120 | handling the events one at a time computes the fold of the prefix read so far |
| FormParser.ParseForm | index.js:93-151 | hashing every chunk and running the handlers over every event yields `Outcome`: the first failure, or the finalized record |
| Extraction.FoldAppend | index.js:100-120 | handling two event sequences in turn is handling their concatenation |
| Extraction.ElementRestoresPath | index.js:105-110 | reading a whole well-nested element returns the path cursor to where it was before the element |
| Extraction.ChildrenRestorePath | index.js:105-110 | reading a sequence of well-nested elements returns the path cursor to where it was |
| Extraction.FormIdFirstWins | index.js:101-103 | once a non-empty id is set, no later event changes the id or the version |
| Extraction.NoInstanceKeepsFormId | index.js:101-103 | elements opened anywhere but the instance path never change the id or the version |
| Extraction.FormIdFromFirstInstance | index.js:100-104 | the first element opened at the instance path fixes the id (its `id`, else its tag) and the version (its non-empty `version`, else unchanged) for the whole form |
| Extraction.NameFirstWins | index.js:113-116 | once a name is set, no later event changes it |
| Extraction.NoTitleKeepsName | index.js:113-116 | text anywhere but the name path never changes the name |
| Extraction.NameFromFirstTitle | index.js:113-116 | the first text at the name path fixes the name (`Unnamed Form` if that text is empty) |
| Extraction.AttachmentsIff | index.js:117-119 | the media flag ends set exactly when it started set or some text event anywhere refers to `jr://images`, `jr://audio` or `jr://video` (any case); it is never cleared |
| Extraction.DefaultsUseOrigin | index.js:20-27 | the defaults configure no URL template, so a form's download URL is its stream's origin, if it has one, and no form gets a manifest URL |
| Extraction.DownloadUrlPrecedence | index.js:132-136 | a configured download template wins over the origin URL; without one the origin is used verbatim; with neither there is no download URL |
| Extraction.ManifestUrlIffMedia | index.js:137-139 | a manifest URL is present exactly when a manifest template is configured and some text refers to media, and it is then the template with the id substituted |
| Extraction.DownloadUrlOfFirstInstance | index.js:132-133 | with a template `prefix${formId}suffix`, the download URL carries the id of the first element opened at the instance path |
| Extraction.ManifestUrlOfFirstInstance | index.js:137-138 | with a template `prefix${formId}suffix` and a form that refers to media, the manifest URL carries the id of the first element opened at the instance path |
| Extraction.HashIsContentAddressed | index.js:124-131 | the hash is `md5:` plus the digest of the concatenated raw chunks, whatever the chunking and the parse |
| FormList.Combine | index.js:76-77 | the combination succeeds exactly when every outcome does, with one record per outcome in order; otherwise its error is that of the first failing outcome |
| FormList.CreateFormList | index.js:65-77 | the form list holds one record per input form, index-aligned; any failing form makes the result an error, the first failing form's |

## Left out

- The XML tokenizer (node-expat) is not modelled: its output for a form is the
  given event sequence, and a tokenizer error is a `Fail` event.
- MD5 is not modelled: the digest is the parameter `md5Hex`, applied to the
  concatenation of the raw chunks.
- Fetching forms over HTTP, the URL check that chooses between fetching and
  wrapping raw text, the detection of stream inputs, and the passing of a
  non-200 response body as the error are I/O and library calls; the origin URL
  a fetched stream carries is an input of the model.
- The `Accept` header set for GitHub API URLs, and the request headers in
  general, belong to the HTTP layer.
- Merging the caller's options onto the defaults is not modelled: `Config` is
  the merged result (`FormParser.Defaults` holds the default paths).
- `FormParser.MediaRef` is the default media pattern; a caller-supplied
  regular expression is not modelled.
- `FormParser.FormMeta`: the order in which a parse sets the record's
  fields (name, id and version as the document reaches them, then hash and
  URLs) is not modelled, and that order fixes the order of the child elements
  in the rendered list.
- Rendering the list as XML (the `xforms` root, its namespace, pretty
  printing) is a foreign serialiser and is not modelled.
- `FormList.CreateFormList` parses the forms one after the other; with
  `async.map` they run concurrently and the error reported is whichever
  arrives first, which the model fixes as the failing form with the lowest
  index.
- `Path.Pop`: the end-tag pattern is built from the unescaped tag name; the
  model matches the tag literally, so tag names holding regular-expression
  metacharacters (such as `.`) are not modelled as patterns, and case is folded
  for ASCII letters only, not for the other letters JavaScript folds.
- `Template.Substitute`: the id is inserted literally; the `$&`-style
  replacement patterns `String.prototype.replace` interprets in an id are not
  modelled.
