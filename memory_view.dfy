/**
 * The memory page: a card with two tabs. The content tab shows the story,
 * a voice player or a photo, each only when the memory has what it needs;
 * the threads tab holds the thread form and the thread list of the memory.
 * JavaScript truthiness decides the conditions: an empty story or an empty
 * media URL counts as absent.
 */
module MemoryView {
  import opened Wrappers
  import Schema

  /** The blocks the content tab can show. */
  datatype Block =
    | StoryBlock(text: string)
    | VoicePlayer(url: string)
    | Photo(src: string)

  /** `memory.media_url` read as a condition: present and not empty. */
  predicate HasMedia(m: Schema.Memory) {
    m.mediaUrl.Some? && m.mediaUrl.value != ""
  }

  /** The story block, when `memory.story` is truthy. */
  function StoryPart(m: Schema.Memory): seq<Block> {
    if m.story != "" then [StoryBlock(m.story)] else []
  }

  /** The voice note, when the memory is a voice memory with a media URL. */
  function VoicePart(m: Schema.Memory): seq<Block> {
    if m.memoryType == "voice" && HasMedia(m) then [VoicePlayer(m.mediaUrl.value)] else []
  }

  /** The photo, when the memory is a photo memory with a media URL. */
  function PhotoPart(m: Schema.Memory): seq<Block> {
    if m.memoryType == "photo" && HasMedia(m) then [Photo(m.mediaUrl.value)] else []
  }

  /** What the content tab shows, top to bottom. */
  function ContentBlocks(m: Schema.Memory): (r: seq<Block>)
    ensures |r| <= 2
  {
    StoryPart(m) + VoicePart(m) + PhotoPart(m)
  }

  predicate ShowsStory(blocks: seq<Block>) {
    exists i :: 0 <= i < |blocks| && blocks[i].StoryBlock?
  }

  predicate ShowsVoicePlayer(blocks: seq<Block>) {
    exists i :: 0 <= i < |blocks| && blocks[i].VoicePlayer?
  }

  predicate ShowsPhoto(blocks: seq<Block>) {
    exists i :: 0 <= i < |blocks| && blocks[i].Photo?
  }

  /** The story block appears exactly when the story is not empty, and then it holds the story. */
  lemma StoryShownIffNonEmpty(m: Schema.Memory)
    ensures ShowsStory(ContentBlocks(m)) <==> m.story != ""
    ensures forall b :: b in ContentBlocks(m) && b.StoryBlock? ==> b.text == m.story
  {
    var blocks := ContentBlocks(m);
    if m.story != "" {
      assert blocks[0].StoryBlock?;
    }
  }

  /** The voice player appears exactly for a voice memory with a media URL, and it plays that URL. */
  lemma VoicePlayerShownIff(m: Schema.Memory)
    ensures ShowsVoicePlayer(ContentBlocks(m)) <==> m.memoryType == "voice" && HasMedia(m)
    ensures forall b :: b in ContentBlocks(m) && b.VoicePlayer? ==> Some(b.url) == m.mediaUrl
  {
    var blocks := ContentBlocks(m);
    if m.memoryType == "voice" && HasMedia(m) {
      assert blocks[|StoryPart(m)|].VoicePlayer?;
    }
  }

  /** The photo appears exactly for a photo memory with a media URL, and it shows that URL. */
  lemma PhotoShownIff(m: Schema.Memory)
    ensures ShowsPhoto(ContentBlocks(m)) <==> m.memoryType == "photo" && HasMedia(m)
    ensures forall b :: b in ContentBlocks(m) && b.Photo? ==> Some(b.src) == m.mediaUrl
  {
    var blocks := ContentBlocks(m);
    if m.memoryType == "photo" && HasMedia(m) {
      assert blocks[|StoryPart(m)|].Photo?;
    }
  }

  /** A memory never shows both a voice player and a photo, and a text memory shows neither. */
  lemma AtMostOneMedia(m: Schema.Memory)
    ensures !(ShowsVoicePlayer(ContentBlocks(m)) && ShowsPhoto(ContentBlocks(m)))
    ensures m.memoryType == "text" ==> ContentBlocks(m) == StoryPart(m)
  {
    VoicePlayerShownIff(m);
    PhotoShownIff(m);
  }

  /** The two tabs. */
  datatype Tab = ContentTab | ThreadsTab

  /** `defaultValue="content"`. */
  const DefaultTab: Tab := ContentTab

  /** The components the threads tab holds, each given the memory's id. */
  datatype Panel = CreateThreadPanel(memoryId: string) | ThreadListPanel(memoryId: string)

  /** What a tab shows: the content blocks, or the thread panels. */
  datatype TabContent = Blocks(blocks: seq<Block>) | Panels(panels: seq<Panel>)

  function TabContentOf(m: Schema.Memory, tab: Tab): (r: TabContent)
    ensures tab == ContentTab <==> r.Blocks?
  {
    match tab
    case ContentTab => Blocks(ContentBlocks(m))
    case ThreadsTab => Panels([CreateThreadPanel(m.id), ThreadListPanel(m.id)])
  }

  /** The page opens on the content tab; the threads tab holds the form above the list, both for this memory. */
  lemma TabsContent(m: Schema.Memory)
    ensures TabContentOf(m, DefaultTab) == Blocks(ContentBlocks(m))
    ensures var p := TabContentOf(m, ThreadsTab).panels;
      |p| == 2 && p[0].CreateThreadPanel? && p[1].ThreadListPanel?
      && forall i :: 0 <= i < |p| ==> p[i].memoryId == m.id
  {
  }
}
