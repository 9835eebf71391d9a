# apidocs configuration model

The `apidocs` portal lists services ("entries"). Each entry has an id, a title, a
description and named documentation sections. A section links either to an outside URL
(`External`) or to a path on the portal derived from the section's own name (`Local`).
The whole configuration is two nested `BTreeMap`s: entries keyed by id, and sections
keyed by section name. Operations add and remove entries and sections, look entries up,
load the configuration file with a fall back to the empty configuration, and render the
index page fragment.

The model has four modules:

- `Wrappers` (`wrappers.dfy`): Rust's `Option`.
- `Order` (`order.dfy`): the iteration order of a `BTreeMap<String, _>`.
  - `LexLess` is the lexicographic order on strings. `SortedKeys` is the key sequence a
    map iterates, least key first. It is specified by choosing the least key.
  - `LeastKey` and `OrderedKeys` compute that sequence with loops.
  - `Concat` and `InKeyOrder` describe a loop that appends one piece of text per key.
  - Rust compares `String`s byte-wise on their UTF-8 encoding. Dafny strings are
    sequences of Unicode scalar values. UTF-8 preserves code-point order, so comparing
    code points gives the same order.
- `Svc` (`svc.dfy`): the data model and its operations.
  - `DocSectionLink`, `DocSection` and the HTML templates are values.
  - `Entry` and `Config` are classes, because the source updates their maps in place
    through `&mut self` and hands out a mutable reference with `get_mut`.
  - `Config.Html()` is the specification of `into_html`. It is the template of each
    entry, in ascending key order, around that entry's section lines in ascending
    section-name order.
  - `Config.IntoHtml` is the nested loop, proved to produce exactly `Html()`.
- `Walkthrough` (`walkthrough.dfy`): the command-line life of one service, for any
  strings. It adds a service, adds a section through the mutable lookup, renders the
  page and removes the service.

The rendered text reproduces the source's templates character for character. This
includes the attribute value spelled `noreferer` and the absence of any HTML escaping.
`Svc.LocalSectionCanPassForExternal` shows what that absence allows: a local section
whose name contains a quote and attributes renders exactly like an external link.

Two invariants are stated but not assumed:
- `Config.Valid()`: every entry is stored under its own id.
- `Entry.Valid()`: every section is stored under its own name.

Loading can produce a file that breaks them, so no operation requires them. Each
mutation keeps them (`old(Valid()) ==> Valid()`). Rendering uses the map key as the
`id` attribute, as the source does, not the entry's `id` field.

## Model

| member | source | states |
|---|---|---|
| Svc.FromUrlOpt | src/svc.rs:18-23 | The link is external exactly when a URL is given, and then carries that URL unchanged. |
| Svc.UrlOf | src/svc.rs:6-15 | The untagged form has a `url` field exactly for an external link. |
| Svc.LinkRoundTrip | src/svc.rs:6-23 | `FromUrlOpt` and `UrlOf` are inverse in both directions, so local and external links never share a form. |
| Svc.Href | src/svc.rs:125-137 | The href of an external link is its URL verbatim. The href of a local link is "/" followed by the section's own name. |
| Svc.DocHtmlShape | src/svc.rs:125-138 | Both section lines are the same `<div class="doc"><a href="` head, the quoted href, the new-context attributes for external links only, and the title closing the anchor. |
| Svc.ExternalShape | src/svc.rs:126-131 | The external line is the head, the URL, a quote and `target="_blank" rel="noreferer noopener"`, then the title. |
| Svc.LocalShape | src/svc.rs:132-137 | The local line is the head, "/" and the section name and a quote, with no extra attributes, then the title. |
| Svc.LocalSectionCanPassForExternal | src/svc.rs:125-137 | Without escaping, a local section whose "/"-prefixed name spells a URL, a quote and the new-context attributes renders exactly like the external link to that URL. |
| Svc.LocalSectionAsExternalExample | src/svc.rs:125-137 | A concrete case: the section named `x" target="_blank" rel="noreferer noopener` renders like an external link to "/x". |
| Svc.DocsHtmlAround | src/svc.rs:124-139 | A section's line comes after the lines of every section named below it and before those named above it. |
| Svc.PushDocLines | src/svc.rs:124-139 | The inner loop over the given section names appends their lines in that order. |
| Svc.PushDocs | src/svc.rs:124-139 | An entry's section lines are appended in ascending order of section name. |
| Svc.PushEntry | src/svc.rs:120-140 | One iteration of the outer loop appends the block of the entry under that key: its opening template, its section lines and `</div>`. |
| Svc.PushEntries | src/svc.rs:119-141 | The outer loop over the given keys appends their blocks in that order. |
| Svc.Entry.constructor | src/svc.rs:49-60 | Id, title and description are stored unchanged. The entry starts with no sections and keyed correctly. |
| Svc.Entry.AddSection | src/svc.rs:62-64 | The section is stored under its own name, replacing any previous one, and every other section is unchanged. The key invariant is kept. Adding a section already stored is a no-op, so adding twice equals adding once. |
| Svc.Entry.RemoveSection | src/svc.rs:66-68 | The name is no longer a key and every other section is unchanged. The key invariant is kept. Removing an absent name is a no-op, so the operation is idempotent. |
| Svc.Config.constructor | src/svc.rs:71-75 | The default configuration has no entries and is keyed correctly. |
| Svc.Config.Add | src/svc.rs:78-80 | The entry is stored under its own id, replacing any previous one, and every other entry is unchanged. Both key invariants are kept. Adding the stored entry again is a no-op. |
| Svc.Config.Get | src/svc.rs:82-84 | `Some` exactly when the id is a key, and then the stored entry. On a keyed configuration that entry has the requested id. |
| Svc.Config.GetMut | src/svc.rs:86-88 | The same outcome as `Get`: the stored entry object itself, so changes made through it are changes to the configuration. |
| Svc.Config.Remove | src/svc.rs:90-92 | Afterwards `Get(id)` is `None` and every other lookup is unchanged. Removing an absent id is a no-op, so a second removal changes nothing. Both key invariants are kept. |
| Svc.Config.HtmlAround | src/svc.rs:117-143 | An entry's block comes after the blocks of every smaller key and before those of every larger key. |
| Svc.Config.IntoHtml | src/svc.rs:117-143 | The nested loop produces exactly the specified page. It produces the empty string for a configuration with no entries. |
| Svc.Config.FromPath | src/svc.rs:94-107 | If the file cannot be opened, cannot be read or does not parse, the result is a fresh configuration with no entries. Otherwise it is the parsed configuration unchanged. |
| Order.SortedKeys | src/svc.rs:119 | The iteration sequence holds exactly the map's keys, each once. |
| Order.SortedKeysAscending | src/svc.rs:119 | Iteration visits keys in strictly ascending order. |
| Order.SortedKeysAround | src/svc.rs:119 | Iteration visits every key below `k`, then `k`, then every key above it. |
| Order.LeastKey | src/svc.rs:119 | The key found is in the set and below every other key. |
| Order.OrderedKeys | src/svc.rs:119 | The loop lists the keys in exactly the iteration order. |
| Order.InKeyOrderAround | src/svc.rs:119-141 | In text built by one append per key in key order, the piece for `k` sits between the pieces for smaller keys and those for larger keys. |
| Order.InKeyOrderSingle | src/svc.rs:119-141 | With one key, that text is the key's piece alone. |
| Walkthrough.AddOnly | src/svc.rs:49-84 | Start empty and add a service: looking its id up finds an entry with the given title and description and no sections yet. |
| Walkthrough.OneSection | src/svc.rs:49-88 | Start empty, add a service and add a section to it through the mutable lookup. The configuration then holds exactly that service with exactly that section, and both are keyed correctly. |
| Walkthrough.LocalSection | src/svc.rs:117-143 | The page for a section added without a URL is the service's block around the local line for that section. |
| Walkthrough.ExternalSection | src/svc.rs:117-143 | The page for a section added with a URL is the service's block around the external line to exactly that URL. |
| Walkthrough.RemoveOnly | src/svc.rs:90-92 | Removing the only service leaves no entries, `Get` finds nothing, and the page is empty. |
| Walkthrough.RenderOne | src/svc.rs:117-143 | A configuration with one service and one section renders as that service's block around that section's line. |
| Walkthrough.OneSectionHtml | src/svc.rs:124-139 | The sections of an entry with exactly one section render as that section's line. |

## Left out

- Saving (`src/svc.rs:109-115`) is not modelled. It is pretty-printed JSON written through `std::fs`, with no logic of its own.
- Svc.Config.FromPath: file access and JSON parsing are parameters. The file outcome is a `ConfigFile` value and the parser is a function to `Option<Config>`. Joining `config.json` onto the storage path is not modelled.
- Svc.UrlOf models only which JSON shape a link takes, not the JSON text serde writes or reads.
- Ownership is not modelled. The Rust `Config` owns its entries by value, and `add` moves the entry in. Here entries are object references, and nothing stops two configurations or two keys from sharing one `Entry`.
- Svc.Entry: `id`, `title` and `description` are constants. The source declares them as public fields but never assigns them after construction.
- HTML escaping is not added. The source inserts every stored string verbatim, and so does the model.
- Walkthrough.LocalSection and Walkthrough.ExternalSection state the page as the entry template around `DocHtml` of the section, not as one literal string. `Svc.DocHtmlShape` and `Svc.Href` pin that line down.
- The nested loop of `into_html` is split into methods: one for the outer loop over entry keys and one for the inner loop over section names. Each is given its keys in iteration order by `Order.OrderedKeys`, not by a map iterator.
- `src/main.rs` (command-line orchestration and its `unwrap` on a missing entry), `src/cli.rs` (argument declarations) and `src/endpoints.rs` with its sub-modules (HTTP routing, errors, metrics, OpenAPI) are not part of this model. They are I/O glue over external crates.
