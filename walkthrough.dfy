/**
 The life of a configuration as the command line drives it: start empty, add a
 service, give it a section through the mutable lookup, render, remove.
 */
module Walkthrough {
  import opened Wrappers
  import opened Svc
  import Order

  /** A service freshly added to the empty configuration, before any section. */
  method AddOnly(id: string, title: string, description: string) returns (config: Config, entry: Entry)
    ensures fresh(config) && fresh(entry)
    ensures config.Get(id) == Some(entry)
    ensures entry.id == id && entry.title == title && entry.description == description
    ensures entry.docs == map[]
    ensures config.entries == map[id := entry]
    ensures config.WellFormed()
  {
    config := new Config();
    entry := new Entry(id, title, description);
    config.Add(entry);
  }

  /** A service with one section, built as `add` then `add-section` build it. */
  method OneSection(id: string, title: string, description: string, doc: DocSection)
    returns (config: Config, entry: Entry)
    ensures fresh(config) && fresh(entry)
    ensures config.entries == map[id := entry]
    ensures entry.title == title && entry.description == description
    ensures entry.docs == map[doc.section := doc]
    ensures config.WellFormed()
  {
    config, entry := AddOnly(id, title, description);
    var target := config.GetMut(id);
    target.value.AddSection(doc);
  }

  /** A section added without a URL is local: the page is the service's block
      around the line linking to "/" followed by the section's name. */
  method LocalSection(id: string, title: string, description: string, section: string, sectionTitle: string)
    returns (html: string)
    ensures html == EntryOpen(id, title, description) + DocHtml(DocSection(section, sectionTitle, Local)) + EntryClose
  {
    var doc := DocSection(section, sectionTitle, FromUrlOpt(None));
    var config, entry := OneSection(id, title, description, doc);
    html := config.IntoHtml();
    RenderOne(config, entry, id, title, description, doc);
  }

  /** A section added with a URL is external: the line links to exactly that
      URL, in a new browsing context. */
  method ExternalSection(id: string, title: string, description: string, section: string, sectionTitle: string, url: string)
    returns (html: string)
    ensures html == EntryOpen(id, title, description) + DocHtml(DocSection(section, sectionTitle, External(url))) + EntryClose
  {
    var doc := DocSection(section, sectionTitle, FromUrlOpt(Some(url)));
    var config, entry := OneSection(id, title, description, doc);
    html := config.IntoHtml();
    RenderOne(config, entry, id, title, description, doc);
  }

  /** Removing the only service leaves nothing to find and nothing to render. */
  method RemoveOnly(id: string, title: string, description: string, doc: DocSection)
    returns (config: Config, html: string)
    ensures config.entries == map[]
    ensures config.Get(id) == None
    ensures html == ""
  {
    var entry;
    config, entry := OneSection(id, title, description, doc);
    config.Remove(id);
    html := config.IntoHtml();
  }

  /** A configuration holding one service with one section renders as that
      service's block around that section's line. */
  lemma RenderOne(config: Config, entry: Entry, id: string, title: string, description: string, doc: DocSection)
    requires config.entries == map[id := entry]
    requires entry.title == title && entry.description == description
    requires entry.docs == map[doc.section := doc]
    ensures config.Html() == EntryOpen(id, title, description) + DocHtml(doc) + EntryClose
  {
    OneSectionHtml(doc);
    Order.InKeyOrderSingle(config.Blocks(), id);
  }

  /** The sections of an entry with a single section render as that section's line. */
  lemma OneSectionHtml(doc: DocSection)
    ensures DocsHtml(map[doc.section := doc]) == DocHtml(doc)
  {
    Order.InKeyOrderSingle(DocLines(map[doc.section := doc]), doc.section);
  }
}
