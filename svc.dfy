/**
 The configuration of the documentation portal: services ("entries"), each with
 named documentation sections, kept in two nested maps ordered by key, and the
 HTML index rendered from them.
 */
module Svc {
  import opened Wrappers
  import opened Order

  /** Where a documentation section points: an outside URL, or a path on this
      deployment derived from the section's own name. */
  datatype DocSectionLink = External(url: string) | Local

  /** A link from an optional URL: present means external, absent means local.
      The URL is kept as given, without any validation. */
  function FromUrlOpt(url: Option<string>): (link: DocSectionLink)
    ensures link.External? <==> url.Some?
    ensures url.Some? ==> link.url == url.value
  {
    match url
    case Some(u) => External(u)
    case None => Local
  }

  /** The `url` field a link carries in its untagged JSON form: present for an
      external link, absent for a local one. */
  function UrlOf(link: DocSectionLink): (url: Option<string>)
    ensures url.Some? <==> link.External?
  {
    match link
    case External(u) => Some(u)
    case Local => None
  }

  /** `FromUrlOpt` is a bijection between optional URLs and links. */
  lemma LinkRoundTrip(link: DocSectionLink, url: Option<string>)
    ensures FromUrlOpt(UrlOf(link)) == link
    ensures UrlOf(FromUrlOpt(url)) == url
  {
  }

  /** One documentation section; `section` is also its key in the owning entry. */
  datatype DocSection = DocSection(section: string, title: string, link: DocSectionLink)

  /** The sections map is keyed by each section's own name. */
  ghost predicate SectionsKeyed(docs: map<string, DocSection>) {
    forall name :: name in docs ==> docs[name].section == name
  }

  // ---------------------------------------------------------------------------
  // HTML templates. Every stored string is inserted verbatim, without escaping.

  /** The opening of an entry's block: its id, title and description. */
  function EntryOpen(id: string, title: string, description: string): string {
    "<div class=\"entry\" id=\"" + id + "\"><h2>" + title + "</h2><p>" + description + "</p>"
  }

  const EntryClose: string := "</div>"

  /** The target of a section's link: the URL itself for an external link, the
      root-relative path named after the section for a local one. */
  function Href(doc: DocSection): (href: string)
    ensures doc.link.External? ==> href == doc.link.url
    ensures doc.link.Local? ==> href == "/" + doc.section
  {
    match doc.link
    case External(url) => url
    case Local => "/" + doc.section
  }

  /** The attributes that make an external link open in a new browsing context. */
  const NewContext: string := " target=\"_blank\" rel=\"noreferer noopener\""

  /** The line for one documentation section. External links open in a new
      browsing context. */
  function DocHtml(doc: DocSection): string {
    match doc.link
    case External(url) =>
      "<div class=\"doc\"><a href=\"" + url + "\"" + NewContext + ">" + doc.title + "</a></div>"
    case Local =>
      "<div class=\"doc\"><a href=\"/" + doc.section + "\">" + doc.title + "</a></div>"
  }

  /** Both kinds of line are a fixed head, then the href in quotes followed by
      the external link's extra attributes, then the title closing the anchor. */
  lemma DocHtmlShape(doc: DocSection)
    ensures DocHtml(doc) ==
      "<div class=\"doc\"><a href=\""
      + (Href(doc) + "\"" + (if doc.link.External? then NewContext else ""))
      + (">" + doc.title + "</a></div>")
  {
    match doc.link
    case External(url) => ExternalShape(doc.section, doc.title, url);
    case Local => LocalShape(doc.section, doc.title);
  }

  /** The external line: the URL in quotes followed by the new-context attributes. */
  lemma ExternalShape(section: string, title: string, url: string)
    ensures DocHtml(DocSection(section, title, External(url))) ==
      "<div class=\"doc\"><a href=\"" + (url + "\"" + NewContext) + (">" + title + "</a></div>")
  {
    Regroup("<div class=\"doc\"><a href=\"", url, "\"", NewContext, ">", title, "</a></div>");
  }

  /** Regrouping a concatenation of seven strings: a hint for the verifier. */
  lemma Regroup(head: string, a: string, b: string, c: string, d: string, e: string, tail: string)
    ensures head + a + (b + c + d) + e + tail == head + (a + b + c) + (d + e + tail)
  {
  }

  /** The local line: "/" and the section name in quotes, with no further attributes. */
  lemma LocalShape(section: string, title: string)
    ensures DocHtml(DocSection(section, title, Local)) ==
      "<div class=\"doc\"><a href=\"" + ("/" + section + "\"" + "") + (">" + title + "</a></div>")
  {
    assert "<div class=\"doc\"><a href=\"/" + section == "<div class=\"doc\"><a href=\"" + ("/" + section);
  }

  /** Nothing is escaped: a local section whose name, after the leading
      slash, spells an external URL, a quote and the new-context attributes
      up to their closing quote renders exactly like that external link. */
  lemma LocalSectionCanPassForExternal(name: string, title: string, url: string)
    requires "/" + name + "\"" == url + "\"" + NewContext
    ensures DocHtml(DocSection(name, title, Local)) == DocHtml(DocSection("y", title, External(url)))
  {
    DocHtmlShape(DocSection(name, title, Local));
    DocHtmlShape(DocSection("y", title, External(url)));
    assert "/" + name + "\"" + "" == "/" + name + "\"";
  }

  /** For instance the section named `x" target="_blank" rel="noreferer noopener`
      passes for an external link to "/x". */
  lemma LocalSectionAsExternalExample(title: string)
    ensures DocHtml(DocSection("x\"" + NewContext[..|NewContext| - 1], title, Local))
         == DocHtml(DocSection("y", title, External("/x")))
  {
    var name := "x\"" + NewContext[..|NewContext| - 1];
    assert NewContext == NewContext[..|NewContext| - 1] + "\"";
    assert "/" + name + "\"" == "/x" + "\"" + NewContext;
    LocalSectionCanPassForExternal(name, title, "/x");
  }

  /** The line of every section, under the section's key. The ensures only
      unfold the comprehension; they are kept as a proof aid for the rendering loops. */
  function DocLines(docs: map<string, DocSection>): (lines: map<string, string>)
    ensures lines.Keys == docs.Keys
    ensures forall name :: name in docs ==> lines[name] == DocHtml(docs[name])
  {
    map name | name in docs :: DocHtml(docs[name])
  }

  /** All sections of an entry, in ascending order of section name. */
  ghost function DocsHtml(docs: map<string, DocSection>): string {
    InKeyOrder(DocLines(docs))
  }

  /** A section's line comes after the lines of all sections named below it
      and before those of all sections named above it. */
  lemma DocsHtmlAround(docs: map<string, DocSection>, name: string)
    requires name in docs
    ensures DocsHtml(docs) ==
      Concat(DocLines(docs), SortedKeys(KeysBelow(docs.Keys, name)))
      + DocHtml(docs[name])
      + Concat(DocLines(docs), SortedKeys(KeysAbove(docs.Keys, name)))
  {
    InKeyOrderAround(DocLines(docs), name);
  }

  /** Appending is associative: a hint for the verifier at the loop steps. */
  lemma AppendAssociative(a: string, b: string, c: string)
    ensures (a + b) + c == a + (b + c)
  {
  }

  /** Appending the next piece to text that ends with the first `i` pieces. */
  lemma AppendStep(prefix: string, pieces: map<string, string>, keys: seq<string>, i: nat)
    requires i < |keys|
    requires forall k :: k in keys ==> k in pieces
    ensures (prefix + Concat(pieces, keys[..i])) + pieces[keys[i]] == prefix + Concat(pieces, keys[..i + 1])
  {
    ConcatStep(pieces, keys, i);
    AppendAssociative(prefix, Concat(pieces, keys[..i]), pieces[keys[i]]);
  }

  /** Appends the lines of the sections stored under `names`, in that order:
      the inner loop of the rendering. */
  method PushDocLines(html: string, docs: map<string, DocSection>, names: seq<string>) returns (out: string)
    requires forall name :: name in names ==> name in docs
    ensures out == html + Concat(DocLines(docs), names)
  {
    ghost var lines := DocLines(docs);
    out := html;
    for j := 0 to |names|
      invariant out == html + Concat(lines, names[..j])
    {
      AppendStep(html, lines, names, j);
      out := out + DocHtml(docs[names[j]]);
    }
    assert names[..|names|] == names;
  }

  /** Appends the line of every section, in ascending order of section name. */
  method PushDocs(html: string, docs: map<string, DocSection>) returns (out: string)
    ensures out == html + DocsHtml(docs)
  {
    var names := OrderedKeys(docs.Keys);
    out := PushDocLines(html, docs, names);
  }

  // ---------------------------------------------------------------------------
  // State

  /** One documented service. Only its sections change after construction. */
  class Entry {
    const id: string
    const title: string
    const description: string
    var docs: map<string, DocSection>

    ghost predicate Valid()
      reads this
    {
      SectionsKeyed(docs)
    }

    /** A service with the given strings and no sections yet. */
    constructor (id: string, title: string, description: string)
      ensures this.id == id && this.title == title && this.description == description
      ensures docs == map[]
      ensures Valid()
    {
      this.id, this.title, this.description := id, title, description;
      docs := map[];
    }

    /** Inserts the section under its own name, replacing any section of that name. */
    method AddSection(section: DocSection)
      modifies this
      ensures docs == old(docs)[section.section := section]
      ensures old(Valid()) ==> Valid()
      ensures old(section.section in docs && docs[section.section] == section) ==> docs == old(docs)
    {
      docs := docs[section.section := section];
    }

    /** Deletes the section of that name; absent names are ignored. */
    method RemoveSection(section: string)
      modifies this
      ensures docs == old(docs) - {section}
      ensures old(Valid()) ==> Valid()
      ensures section !in old(docs) ==> docs == old(docs)
    {
      docs := docs - {section};
    }
  }

  /** The block rendered for an entry stored under key `id`. */
  ghost function EntryHtml(id: string, entry: Entry): string
    reads entry
  {
    EntryOpen(id, entry.title, entry.description) + DocsHtml(entry.docs) + EntryClose
  }

  /** The block of every entry, under the key it is stored under. The ensures
      only unfold the comprehension; they are kept as a proof aid for the rendering loops. */
  ghost function EntryBlocks(entries: map<string, Entry>): (blocks: map<string, string>)
    reads entries.Values
    ensures blocks.Keys == entries.Keys
    ensures forall id :: id in entries ==> blocks[id] == EntryHtml(id, entries[id])
  {
    map id | id in entries :: EntryHtml(id, entries[id])
  }

  /** Appends the block of one entry: its opening `div`, its sections, and
      the closing tag. */
  method PushEntry(html: string, entries: map<string, Entry>, id: string) returns (out: string)
    requires id in entries
    ensures out == html + EntryBlocks(entries)[id]
  {
    var entry := entries[id];
    out := html + EntryOpen(id, entry.title, entry.description);
    out := PushDocs(out, entry.docs);
    out := out + EntryClose;
    AppendAssociative(html, EntryOpen(id, entry.title, entry.description), DocsHtml(entry.docs));
    AppendAssociative(html, EntryOpen(id, entry.title, entry.description) + DocsHtml(entry.docs), EntryClose);
  }

  /** Appends the blocks of the entries stored under `ids`, in that order:
      the outer loop of the rendering. */
  method PushEntries(html: string, entries: map<string, Entry>, ids: seq<string>) returns (out: string)
    requires forall id :: id in ids ==> id in entries
    ensures out == html + Concat(EntryBlocks(entries), ids)
  {
    ghost var blocks := EntryBlocks(entries);
    out := html;
    for i := 0 to |ids|
      invariant out == html + Concat(blocks, ids[..i])
    {
      AppendStep(html, blocks, ids, i);
      out := PushEntry(out, entries, ids[i]);
    }
    assert ids[..|ids|] == ids;
  }

  /** What the file system gives back for the configuration file. */
  datatype ConfigFile = Unopenable | Unreadable | Contents(json: string)

  /** All services, by id. */
  class Config {
    var entries: map<string, Entry>

    /** Every service is stored under its own id. */
    ghost predicate Valid()
      reads this
    {
      forall id :: id in entries ==> entries[id].id == id
    }

    /** Keys match ids at both levels. */
    ghost predicate WellFormed()
      reads this, entries.Values
    {
      Valid() && forall id :: id in entries ==> entries[id].Valid()
    }

    /** The default configuration: no services. */
    constructor ()
      ensures entries == map[]
      ensures Valid()
    {
      entries := map[];
    }

    /** Inserts the entry under its own id, replacing any entry with that id. */
    method Add(entry: Entry)
      modifies this
      ensures entries == old(entries)[entry.id := entry]
      ensures old(Valid()) ==> Valid()
      ensures old(WellFormed()) && entry.Valid() ==> WellFormed()
      ensures old(entry.id in entries && entries[entry.id] == entry) ==> entries == old(entries)
    {
      entries := entries[entry.id := entry];
    }

    function Get(id: string): (found: Option<Entry>)
      reads this
      ensures found.Some? <==> id in entries
      ensures found.Some? ==> found.value == entries[id]
      ensures found.Some? && Valid() ==> found.value.id == id
    {
      if id in entries then Some(entries[id]) else None
    }

    /** The stored entry itself, so that changing it changes this configuration. */
    method GetMut(id: string) returns (found: Option<Entry>)
      ensures found.Some? <==> id in entries
      ensures found.Some? ==> found.value == entries[id]
    {
      if id in entries {
        found := Some(entries[id]);
      } else {
        found := None;
      }
    }

    /** Deletes the entry with that id; absent ids are ignored. */
    method Remove(id: string)
      modifies this
      ensures entries == old(entries) - {id}
      ensures Get(id) == None
      ensures forall other :: other != id ==> Get(other) == old(Get(other))
      ensures id !in old(entries) ==> entries == old(entries)
      ensures old(Valid()) ==> Valid()
      ensures old(WellFormed()) ==> WellFormed()
    {
      entries := entries - {id};
    }

    /** The block of every entry, under the entry's key. */
    ghost function Blocks(): (blocks: map<string, string>)
      reads this, entries.Values
    {
      EntryBlocks(entries)
    }

    /** The index page fragment: every entry, in ascending order of id. */
    ghost function Html(): string
      reads this, entries.Values
    {
      InKeyOrder(Blocks())
    }

    /** An entry's block comes after the blocks of all entries with smaller ids
        and before those of all entries with larger ids. */
    lemma HtmlAround(id: string)
      requires id in entries
      ensures Html() ==
        Concat(Blocks(), SortedKeys(KeysBelow(entries.Keys, id)))
        + EntryHtml(id, entries[id])
        + Concat(Blocks(), SortedKeys(KeysAbove(entries.Keys, id)))
    {
      InKeyOrderAround(Blocks(), id);
    }

    /** Renders the index page fragment, walking both maps in key order. */
    method IntoHtml() returns (html: string)
      ensures html == Html()
      ensures entries == map[] ==> html == ""
    {
      var ids := OrderedKeys(entries.Keys);
      html := PushEntries("", entries, ids);
      assert "" + Html() == Html();
    }

    /** Loads the configuration file: the parsed configuration when the file
        can be opened, read and parsed, and otherwise the empty default.
        `parse` stands for JSON deserialization. */
    static method FromPath(file: ConfigFile, parse: string -> Option<Config>) returns (config: Config)
      ensures file.Contents? && parse(file.json).Some? ==> config == parse(file.json).value
      ensures !(file.Contents? && parse(file.json).Some?) ==> fresh(config) && config.entries == map[]
    {
      match file
      case Unopenable =>
        config := new Config();
      case Unreadable =>
        config := new Config();
      case Contents(json) =>
        match parse(json)
        case None =>
          config := new Config();
        case Some(parsed) =>
          config := parsed;
    }
  }
}
