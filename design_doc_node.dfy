/** The design-document node and its two prompt formatters. */
module DesignDocNode {
  import opened Wrappers
  import opened Text
  import opened SdlcState
  import opened Generation

  /** `_format_list`: each item as "- " + item, joined by newlines. */
  function FormatList(items: seq<string>): (r: string)
    ensures r == "" <==> |items| == 0
    ensures |items| > 0 ==> "- " + items[0] <= r
  {
    Join("\n", seq(|items|, i requires 0 <= i < |items| => "- " + items[i]))
  }

  /** Reference rendering: every item on its own newline-terminated line. */
  function BulletLines(items: seq<string>): string {
    if |items| == 0 then "" else "- " + items[0] + "\n" + BulletLines(items[1..])
  }

  /** The empty list formats to the empty string; any other list formats to
      its bullet lines without the final newline. */
  lemma {:induction false} FormatListLines(items: seq<string>)
    ensures |items| == 0 ==> FormatList(items) == ""
    ensures |items| > 0 ==> FormatList(items) + "\n" == BulletLines(items)
  {
    if |items| > 1 {
      FormatListLines(items[1..]);
      var bullets := seq(|items|, i requires 0 <= i < |items| => "- " + items[i]);
      assert bullets[1..] == seq(|items| - 1, i requires 0 <= i < |items| - 1 => "- " + items[1..][i]);
    }
  }

  /** An element of the `stories` list: an object with `id`, `title` and
      `description` attributes, a dictionary (its values as `str` renders
      them), or anything else. */
  datatype StoryItem = Story(story: UserStory) | Mapping(fields: map<string, string>) | Other

  /** `d.get(key, 'N/A')`. */
  function Lookup(fields: map<string, string>, key: string): string {
    if key in fields then fields[key] else "N/A"
  }

  function Entry(id: string, title: string, description: string): string {
    "- ID: " + id + "\n  Title: " + title + "\n  Description: " + description
  }

  /** The entry `_format_user_stories` appends for one item, if any. */
  function EntryOf(item: StoryItem): Option<string> {
    match item
    case Story(s) => Some(Entry(IntToString(s.id), s.title, s.description))
    case Mapping(f) => Some(Entry(Lookup(f, "id"), Lookup(f, "title"), Lookup(f, "description")))
    case Other => None
  }

  /** The list `formatted_stories` built from `items`. */
  function Entries(items: seq<StoryItem>): seq<string> {
    if |items| == 0 then []
    else
      var last := EntryOf(items[|items| - 1]);
      Entries(items[..|items| - 1]) + (if last.Some? then [last.value] else [])
  }

  /** The string `_format_user_stories` returns. */
  function UserStoriesText(items: seq<StoryItem>): string {
    Join("\n", Entries(items))
  }

  /** `_format_user_stories`: loops over the items, appending an entry for
      each object or dictionary, and joins the entries by newlines. */
  method FormatUserStories(stories: seq<StoryItem>) returns (text: string)
    ensures text == UserStoriesText(stories)
  {
    var formatted: seq<string> := [];
    for i := 0 to |stories|
      invariant formatted == Entries(stories[..i])
    {
      var story := stories[i];
      assert stories[..i + 1][..i] == stories[..i];
      if story.Story? {
        formatted := formatted + [Entry(IntToString(story.story.id), story.story.title, story.story.description)];
      } else if story.Mapping? {
        var f := story.fields;
        formatted := formatted + [Entry(Lookup(f, "id"), Lookup(f, "title"), Lookup(f, "description"))];
      }
    }
    assert stories[..|stories|] == stories;
    text := Join("\n", formatted);
  }

  /** Formatting distributes over concatenation of item lists. */
  lemma {:induction false} EntriesAppend(a: seq<StoryItem>, b: seq<StoryItem>)
    ensures Entries(a + b) == Entries(a) + Entries(b)
    decreases |b|
  {
    if |b| == 0 {
      assert a + b == a;
    } else {
      var b' := b[..|b| - 1];
      assert (a + b)[..|a + b| - 1] == a + b';
      EntriesAppend(a, b');
    }
  }

  /** An item that is neither an object nor a dictionary is dropped without a trace. */
  lemma OtherDropped(a: seq<StoryItem>, b: seq<StoryItem>)
    ensures Entries(a + [Other] + b) == Entries(a + b)
  {
    EntriesAppend(a + [Other], b);
    EntriesAppend(a, [Other]);
    EntriesAppend(a, b);
    assert Entries([Other]) == [];
  }

  /** One more object or dictionary adds exactly its own entry at the end. */
  lemma EntriesSnoc(prefix: seq<StoryItem>, last: StoryItem)
    requires !last.Other?
    ensures Entries(prefix + [last]) == Entries(prefix) + [EntryOf(last).value]
  {
    assert (prefix + [last])[..|prefix|] == prefix;
  }

  /** When every item is an object or a dictionary there is exactly one entry
      per item, in input order. */
  lemma {:induction false} EntriesInOrder(items: seq<StoryItem>)
    requires forall i :: 0 <= i < |items| ==> !items[i].Other?
    ensures |Entries(items)| == |items|
    ensures forall i :: 0 <= i < |items| ==> Entries(items)[i] == EntryOf(items[i]).value
  {
    if |items| > 0 {
      var prefix, last := items[..|items| - 1], items[|items| - 1];
      assert items == prefix + [last];
      EntriesInOrder(prefix);
      EntriesSnoc(prefix, last);
    }
  }

  /** The entry shows id, title and description and never the status. */
  lemma StatusNotShown(s: UserStory, status: string)
    ensures EntryOf(Story(s)) == EntryOf(Story(s.(status := status)))
  {
  }

  /** An object and the dictionary holding its rendered fields give the same entry. */
  lemma ObjectAndDictionaryAgree(s: UserStory)
    ensures EntryOf(Story(s)) ==
            EntryOf(Mapping(map["id" := IntToString(s.id), "title" := s.title, "description" := s.description]))
  {
  }

  /** A dictionary missing a key shows "N/A" in its slot. */
  lemma MissingKeysShowNA(f: map<string, string>)
    ensures EntryOf(Mapping(f)) == Some(Entry(if "id" in f then f["id"] else "N/A",
                                              if "title" in f then f["title"] else "N/A",
                                              if "description" in f then f["description"] else "N/A"))
    ensures "id" !in f && "title" !in f && "description" !in f ==>
              EntryOf(Mapping(f)) == Some(Entry("N/A", "N/A", "N/A"))
  {
  }

  /** `generate_functional_design`: the generated text for the prompt built
      from the project name and the two formatted lists. */
  function GenerateFunctionalDesign(llm: Llm, projectName: string, requirements: seq<string>,
                                    stories: seq<UserStory>): (r: string)
    ensures r == llm.functionalDesign(projectName, FormatList(requirements),
                   Join("\n", seq(|stories|, i requires 0 <= i < |stories| =>
                     Entry(IntToString(stories[i].id), stories[i].title, stories[i].description))))
  {
    var items := seq(|stories|, i requires 0 <= i < |stories| => Story(stories[i]));
    EntriesInOrder(items);
    assert Entries(items) == seq(|stories|, i requires 0 <= i < |stories| =>
      Entry(IntToString(stories[i].id), stories[i].title, stories[i].description));
    llm.functionalDesign(projectName, FormatList(requirements), UserStoriesText(items))
  }

  /** `create_design_document`: returns every key of the state unchanged plus
      `design_documents`, whose `functional` text is generated from the
      project name, the requirements and the stories; an absent key among
      those three reads as the empty string (and so formats to ""). */
  function CreateDesignDocument(llm: Llm, s: SDLCState): (r: SDLCState)
    ensures r.designDocuments == Some(DesignDocument(
      GenerateFunctionalDesign(llm, s.projectName.GetOr(""), s.requirements.GetOr([]), s.userStories.GetOr([]))))
    ensures r.(designDocuments := s.designDocuments) == s
    ensures Covers(r, s)
  {
    var text := GenerateFunctionalDesign(llm, s.projectName.GetOr(""), s.requirements.GetOr([]), s.userStories.GetOr([]));
    s.(designDocuments := Some(DesignDocument(text)))
  }

  /** With no requirements and no stories in the state, both formatted lists
      handed to the generator are empty. */
  lemma MissingListsFormatEmpty(llm: Llm, s: SDLCState)
    requires s.requirements.None? && s.userStories.None?
    ensures CreateDesignDocument(llm, s).designDocuments ==
            Some(DesignDocument(llm.functionalDesign(s.projectName.GetOr(""), "", "")))
  {
  }
}
