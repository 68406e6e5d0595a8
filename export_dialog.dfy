// The project export of GUI/windows/export_dialog.py: the text the worker
// writes for Markdown, plain text and Fountain, the worker's dispatch on the
// format name and its messages, the extension and file-filter tables, and
// the dialog's preparation of the export data (dropping annotations and
// footnotes when they are not wanted). Writing the file, the thread, the
// progress bar and the message boxes are not modelled: the worker's result is
// what it would write and the message it would send.

module Export {
  import opened Json
  import opened Text
  import opened Scenes
  import opened Annotations
  import opened ProjectEditor

  /**
   * The project data handed to the worker; `None` when `title` or `chapters`
   * is absent. `others` holds every other key of the dictionary (`metadata`
   * among them): the text formats ignore them and the JSON export writes them.
   */
  datatype ExportData = ExportData(title: Option<string>, chapters: Option<seq<Chapter>>, others: map<string, Value>)

  /**
   * The dictionary `_show_export_dialog` builds: the editor has no
   * `project_title`, `created_date` or `modified_date`, so the defaults are used.
   */
  function EditorExportData(chapters: seq<Chapter>): ExportData
  {
    ExportData(Some("Untitled Project"), Some(chapters),
               map["metadata" := Obj(map["created" := Str("Unknown"), "modified" := Str("Unknown"), "version" := Str("1.0")])])
  }

  /** The three text formats, which differ only in their headings. */
  datatype Style = Markdown | PlainText | Fountain

  /**
   * The strings a text format puts around the titles: before and after the
   * project title, before and after a chapter title, before a scene title,
   * and the paragraph break after a scene title and after its content.
   */
  datatype Format = Format(titleLead: string, titleTail: string, chapterLead: string, chapterTail: string,
                           sceneLead: string, gap: string)

  /** `"=" * 50`, under the project title of a plain-text file. */
  const TitleRule := Repeat('=', 50)

  /** `"-" * 30`, under each chapter title of a plain-text file. */
  const ChapterRule := Repeat('-', 30)

  /**
   * The headings of `_export_markdown` ("# ", "## ", "### "), of
   * `_export_plain_text` (bare titles, underlined with `=` and `-`) and of
   * `_export_fountain` ("Title: ", "# ", "## ").
   */
  function FormatOf(style: Style): Format
  {
    match style
    case Markdown => Format("# ", "\n\n", "## ", "\n\n", "### ", "\n\n")
    case PlainText => Format("", "\n" + TitleRule + "\n\n", "", "\n" + ChapterRule + "\n\n", "", "\n\n")
    case Fountain => Format("Title: ", "\n\n", "# ", "\n\n", "## ", "\n\n")
  }

  // ---------------------------------------------------------------------------
  // The exported text

  function ProjectTitle(d: ExportData): string
  {
    d.title.GetOr("Untitled Project")
  }

  function ChapterTitle(ch: Chapter): string
  {
    ch.title.GetOr("Untitled Chapter")
  }

  /** A dictionary's `title` (default "Untitled Scene"); a bare string is its own title. */
  function SceneTitle(s: Scene): string
  {
    if s.Plain? then s.text else s.title.GetOr("Untitled Scene")
  }

  /** A dictionary's `content` (default empty); a bare string has none. */
  function SceneContent(s: Scene): string
  {
    if s.Plain? then "" else s.content.GetOr("")
  }

  function Header(f: Format, title: string): string
  {
    f.titleLead + title + f.titleTail
  }

  function ChapterHeading(f: Format, title: string): string
  {
    f.chapterLead + title + f.chapterTail
  }

  /** One scene: its heading, then its content and a paragraph break. */
  function SceneBlock(f: Format, s: Scene): string
  {
    f.sceneLead + SceneTitle(s) + f.gap + SceneContent(s) + f.gap
  }

  function ScenesText(f: Format, scenes: seq<Scene>): string
  {
    if scenes == [] then ""
    else ScenesText(f, scenes[..|scenes| - 1]) + SceneBlock(f, scenes[|scenes| - 1])
  }

  /** One chapter: its heading, then its scenes (`chapter.get("scenes", [])`). */
  function ChapterText(f: Format, ch: Chapter): string
  {
    ChapterHeading(f, ChapterTitle(ch)) + ScenesText(f, ch.scenes.GetOr([]))
  }

  function ChaptersText(f: Format, chapters: seq<Chapter>): string
  {
    if chapters == [] then ""
    else ChaptersText(f, chapters[..|chapters| - 1]) + ChapterText(f, chapters[|chapters| - 1])
  }

  /** The whole file: the project header, then the chapters in order. */
  function Rendered(f: Format, d: ExportData): string
  {
    Header(f, ProjectTitle(d)) + ChaptersText(f, d.chapters.GetOr([]))
  }

  /**
   * `_export_markdown`, `_export_plain_text` and `_export_fountain` (with
   * `f` their headings): the content is built by appending the header, then
   * per chapter its heading and per scene its heading and its content.
   */
  method Render(f: Format, d: ExportData) returns (content: string)
    ensures content == Rendered(f, d)
  {
    content := f.titleLead + ProjectTitle(d) + f.titleTail;
    var chapters := d.chapters.GetOr([]);
    for i := 0 to |chapters|
      invariant content == Header(f, ProjectTitle(d)) + ChaptersText(f, chapters[..i])
    {
      var chapter := chapters[i];
      ghost var before := content;
      content := content + (f.chapterLead + ChapterTitle(chapter) + f.chapterTail);
      content := AppendScenes(f, content, chapter.scenes.GetOr([]));
      Assoc(before, ChapterHeading(f, ChapterTitle(chapter)), ScenesText(f, chapter.scenes.GetOr([])));
      assert chapters[..i + 1][..i] == chapters[..i];
      Assoc(Header(f, ProjectTitle(d)), ChaptersText(f, chapters[..i]), ChapterText(f, chapter));
    }
    assert chapters[..|chapters|] == chapters;
  }

  /** The inner loop of the exporters: per scene, its heading and then its content are appended. */
  method AppendScenes(f: Format, prefix: string, scenes: seq<Scene>) returns (content: string)
    ensures content == prefix + ScenesText(f, scenes)
  {
    content := prefix;
    for j := 0 to |scenes|
      invariant content == prefix + ScenesText(f, scenes[..j])
    {
      var scene := scenes[j];
      ghost var prior := content;
      content := content + (f.sceneLead + SceneTitle(scene) + f.gap);
      content := content + (SceneContent(scene) + f.gap);
      Assoc(prior, f.sceneLead + SceneTitle(scene) + f.gap, SceneContent(scene) + f.gap);
      assert scenes[..j + 1][..j] == scenes[..j];
      Assoc(prefix, ScenesText(f, scenes[..j]), SceneBlock(f, scene));
    }
    assert scenes[..|scenes|] == scenes;
  }

  lemma Assoc(x: string, a: string, b: string)
    ensures x + a + b == x + (a + b)
  {
  }


  lemma {:induction false} ScenesTextAppend(f: Format, a: seq<Scene>, b: seq<Scene>)
    ensures ScenesText(f, a + b) == ScenesText(f, a) + ScenesText(f, b)
  {
    if b != [] {
      var n := |b| - 1;
      assert (a + b)[..|a + b| - 1] == a + b[..n];
      ScenesTextAppend(f, a, b[..n]);
    } else {
      assert a + b == a;
    }
  }

  lemma {:induction false} ChaptersTextAppend(f: Format, a: seq<Chapter>, b: seq<Chapter>)
    ensures ChaptersText(f, a + b) == ChaptersText(f, a) + ChaptersText(f, b)
  {
    if b != [] {
      var n := |b| - 1;
      assert (a + b)[..|a + b| - 1] == a + b[..n];
      ChaptersTextAppend(f, a, b[..n]);
    } else {
      assert a + b == a;
    }
  }

  /** Where chapter `i`'s heading starts in the file. */
  function ChapterOffset(f: Format, d: ExportData, i: nat): nat
    requires i < |d.chapters.GetOr([])|
  {
    |Header(f, ProjectTitle(d))| + |ChaptersText(f, d.chapters.GetOr([])[..i])|
  }

  /** Where scene `j` of chapter `i` starts in the file. */
  function SceneOffset(f: Format, d: ExportData, i: nat, j: nat): nat
    requires i < |d.chapters.GetOr([])| && j < |d.chapters.GetOr([])[i].scenes.GetOr([])|
  {
    var ch := d.chapters.GetOr([])[i];
    ChapterOffset(f, d, i) + |ChapterHeading(f, ChapterTitle(ch))| + |ScenesText(f, ch.scenes.GetOr([])[..j])|
  }

  /** The file split around chapter `i`. */
  lemma ChapterSplit(f: Format, d: ExportData, i: nat)
    requires i < |d.chapters.GetOr([])|
    ensures var chapters := d.chapters.GetOr([]);
            Rendered(f, d) == Header(f, ProjectTitle(d)) + ChaptersText(f, chapters[..i])
                              + ChapterText(f, chapters[i]) + ChaptersText(f, chapters[i + 1..])
  {
    var chapters := d.chapters.GetOr([]);
    assert chapters == chapters[..i + 1] + chapters[i + 1..];
    ChaptersTextAppend(f, chapters[..i + 1], chapters[i + 1..]);
    assert chapters[..i + 1][..i] == chapters[..i];
  }

  lemma OccursLeft(a: string, b: string)
    ensures OccursAt(a, a + b, 0)
  {
    assert (a + b)[..|a|] == a;
  }

  lemma OccursRight(a: string, b: string)
    ensures OccursAt(b, a + b, |a|)
  {
    assert (a + b)[|a|..] == b;
  }

  /** A part of `s` is a part of whatever `s` is a part of. */
  lemma OccursWithin(part: string, s: string, i: nat, t: string, j: nat)
    requires OccursAt(part, s, i) && OccursAt(s, t, j)
    ensures OccursAt(part, t, j + i)
  {
    forall k | 0 <= k < |part| ensures t[j + i + k] == part[k] {
      assert t[j..j + |s|][i + k] == s[i + k];
      assert s[i..i + |part|][k] == part[k];
    }
    assert t[j + i..j + i + |part|] == part;
  }

  /** Chapter `i`'s text sits in the chapters' text right after the chapters before it. */
  lemma ChapterInChapters(f: Format, chapters: seq<Chapter>, i: nat)
    requires i < |chapters|
    ensures OccursAt(ChapterText(f, chapters[i]), ChaptersText(f, chapters), |ChaptersText(f, chapters[..i])|)
  {
    var before, upto, after := ChaptersText(f, chapters[..i]), ChaptersText(f, chapters[..i + 1]), ChaptersText(f, chapters[i + 1..]);
    var text := ChapterText(f, chapters[i]);
    assert chapters == chapters[..i + 1] + chapters[i + 1..];
    ChaptersTextAppend(f, chapters[..i + 1], chapters[i + 1..]);
    assert chapters[..i + 1][..i] == chapters[..i];
    assert upto == before + text;
    OccursRight(before, text);
    OccursLeft(upto, after);
    OccursWithin(text, upto, |before|, upto + after, 0);
  }

  /** Chapter `i`'s text sits right after the header and the chapters before it. */
  lemma ChapterTextAt(f: Format, d: ExportData, i: nat)
    requires i < |d.chapters.GetOr([])|
    ensures OccursAt(ChapterText(f, d.chapters.GetOr([])[i]), Rendered(f, d), ChapterOffset(f, d, i))
  {
    var chapters := d.chapters.GetOr([]);
    var h := Header(f, ProjectTitle(d));
    ChapterInChapters(f, chapters, i);
    OccursRight(h, ChaptersText(f, chapters));
    OccursWithin(ChapterText(f, chapters[i]), ChaptersText(f, chapters), |ChaptersText(f, chapters[..i])|, Rendered(f, d), |h|);
  }

  /** Chapter `i`'s heading sits at its offset. */
  lemma ChapterHeadingAt(f: Format, d: ExportData, i: nat)
    requires i < |d.chapters.GetOr([])|
    ensures OccursAt(ChapterHeading(f, ChapterTitle(d.chapters.GetOr([])[i])), Rendered(f, d), ChapterOffset(f, d, i))
  {
    var ch := d.chapters.GetOr([])[i];
    ChapterTextAt(f, d, i);
    OccursLeft(ChapterHeading(f, ChapterTitle(ch)), ScenesText(f, ch.scenes.GetOr([])));
    OccursWithin(ChapterHeading(f, ChapterTitle(ch)), ChapterText(f, ch), 0, Rendered(f, d), ChapterOffset(f, d, i));
  }

  /** Scene `j`'s block sits in the scenes' text right after the blocks before it. */
  lemma SceneInScenes(f: Format, scenes: seq<Scene>, j: nat)
    requires j < |scenes|
    ensures OccursAt(SceneBlock(f, scenes[j]), ScenesText(f, scenes), |ScenesText(f, scenes[..j])|)
  {
    var before, upto, after := ScenesText(f, scenes[..j]), ScenesText(f, scenes[..j + 1]), ScenesText(f, scenes[j + 1..]);
    var block := SceneBlock(f, scenes[j]);
    assert scenes == scenes[..j + 1] + scenes[j + 1..];
    ScenesTextAppend(f, scenes[..j + 1], scenes[j + 1..]);
    assert scenes[..j + 1][..j] == scenes[..j];
    assert upto == before + block;
    OccursRight(before, block);
    OccursLeft(upto, after);
    OccursWithin(block, upto, |before|, upto + after, 0);
  }

  /** Scene `j` of chapter `i` (heading, content and paragraph breaks) sits at its offset. */
  lemma SceneBlockAt(f: Format, d: ExportData, i: nat, j: nat)
    requires i < |d.chapters.GetOr([])| && j < |d.chapters.GetOr([])[i].scenes.GetOr([])|
    ensures var scene := d.chapters.GetOr([])[i].scenes.GetOr([])[j];
            OccursAt(SceneBlock(f, scene), Rendered(f, d), SceneOffset(f, d, i, j))
  {
    var ch := d.chapters.GetOr([])[i];
    var scenes := ch.scenes.GetOr([]);
    var heading := ChapterHeading(f, ChapterTitle(ch));
    var block := SceneBlock(f, scenes[j]);
    SceneInScenes(f, scenes, j);
    OccursRight(heading, ScenesText(f, scenes));
    OccursWithin(block, ScenesText(f, scenes), |ScenesText(f, scenes[..j])|, ChapterText(f, ch), |heading|);
    ChapterTextAt(f, d, i);
    OccursWithin(block, ChapterText(f, ch), |heading| + |ScenesText(f, scenes[..j])|, Rendered(f, d), ChapterOffset(f, d, i));
  }

  /** The texts of a prefix of the scenes fit inside the texts of a longer prefix. */
  lemma ScenesPrefixLength(f: Format, scenes: seq<Scene>, j: nat, k: nat)
    requires j < k <= |scenes|
    ensures |ScenesText(f, scenes[..j])| + |SceneBlock(f, scenes[j])| <= |ScenesText(f, scenes[..k])|
  {
    assert scenes[..k] == scenes[..j + 1] + scenes[j + 1..k];
    ScenesTextAppend(f, scenes[..j + 1], scenes[j + 1..k]);
    assert scenes[..j + 1][..j] == scenes[..j];
  }

  lemma ChaptersPrefixLength(f: Format, chapters: seq<Chapter>, i: nat, k: nat)
    requires i < k <= |chapters|
    ensures |ChaptersText(f, chapters[..i])| + |ChapterText(f, chapters[i])| <= |ChaptersText(f, chapters[..k])|
  {
    assert chapters[..k] == chapters[..i + 1] + chapters[i + 1..k];
    ChaptersTextAppend(f, chapters[..i + 1], chapters[i + 1..k]);
    assert chapters[..i + 1][..i] == chapters[..i];
  }

  /**
   * The scenes come out in order: a scene earlier in the project (an
   * earlier chapter, or earlier in the same chapter) ends before a later one
   * starts.
   */
  lemma ScenesInOrder(f: Format, d: ExportData, i: nat, j: nat, i': nat, j': nat)
    requires i < |d.chapters.GetOr([])| && j < |d.chapters.GetOr([])[i].scenes.GetOr([])|
    requires i' < |d.chapters.GetOr([])| && j' < |d.chapters.GetOr([])[i'].scenes.GetOr([])|
    requires i < i' || (i == i' && j < j')
    ensures SceneOffset(f, d, i, j) + |SceneBlock(f, d.chapters.GetOr([])[i].scenes.GetOr([])[j])|
              <= SceneOffset(f, d, i', j')
  {
    var chapters := d.chapters.GetOr([]);
    var scenes := chapters[i].scenes.GetOr([]);
    if i == i' {
      ScenesPrefixLength(f, scenes, j, j');
    } else {
      ScenesPrefixLength(f, scenes, j, |scenes|);
      assert scenes[..|scenes|] == scenes;
      ChaptersPrefixLength(f, chapters, i, i');
    }
  }

  /** The middle of three pieces sits right after the first. */
  lemma OccursMiddle(a: string, b: string, c: string)
    ensures OccursAt(b, a + b + c, |a|)
  {
    OccursRight(a, b);
    OccursLeft(a + b, c);
    OccursWithin(b, a + b, |a|, a + b + c, 0);
  }

  /** The project title, every chapter title and every scene title appear in the file. */
  lemma TitlesAppear(f: Format, d: ExportData, i: nat, j: nat)
    requires i < |d.chapters.GetOr([])| && j < |d.chapters.GetOr([])[i].scenes.GetOr([])|
    ensures IsSubstring(ProjectTitle(d), Rendered(f, d))
    ensures IsSubstring(ChapterTitle(d.chapters.GetOr([])[i]), Rendered(f, d))
    ensures IsSubstring(SceneTitle(d.chapters.GetOr([])[i].scenes.GetOr([])[j]), Rendered(f, d))
  {
    ProjectTitleAt(f, d);
    ChapterTitleAt(f, d, i);
    SceneTitleAt(f, d, i, j);
  }

  lemma ProjectTitleAt(f: Format, d: ExportData)
    ensures OccursAt(ProjectTitle(d), Rendered(f, d), |f.titleLead|)
  {
    var header := Header(f, ProjectTitle(d));
    OccursMiddle(f.titleLead, ProjectTitle(d), f.titleTail);
    OccursLeft(header, ChaptersText(f, d.chapters.GetOr([])));
    OccursWithin(ProjectTitle(d), header, |f.titleLead|, Rendered(f, d), 0);
  }

  lemma ChapterTitleAt(f: Format, d: ExportData, i: nat)
    requires i < |d.chapters.GetOr([])|
    ensures OccursAt(ChapterTitle(d.chapters.GetOr([])[i]), Rendered(f, d), ChapterOffset(f, d, i) + |f.chapterLead|)
  {
    var t := ChapterTitle(d.chapters.GetOr([])[i]);
    ChapterHeadingAt(f, d, i);
    OccursMiddle(f.chapterLead, t, f.chapterTail);
    OccursWithin(t, ChapterHeading(f, t), |f.chapterLead|, Rendered(f, d), ChapterOffset(f, d, i));
  }

  lemma SceneTitleAt(f: Format, d: ExportData, i: nat, j: nat)
    requires i < |d.chapters.GetOr([])| && j < |d.chapters.GetOr([])[i].scenes.GetOr([])|
    ensures OccursAt(SceneTitle(d.chapters.GetOr([])[i].scenes.GetOr([])[j]), Rendered(f, d), SceneOffset(f, d, i, j) + |f.sceneLead|)
  {
    var scene := d.chapters.GetOr([])[i].scenes.GetOr([])[j];
    SceneBlockAt(f, d, i, j);
    var rest := SceneContent(scene) + f.gap;
    assert SceneBlock(f, scene) == f.sceneLead + SceneTitle(scene) + (f.gap + rest);
    OccursMiddle(f.sceneLead, SceneTitle(scene), f.gap + rest);
    OccursWithin(SceneTitle(scene), SceneBlock(f, scene), |f.sceneLead|, Rendered(f, d), SceneOffset(f, d, i, j));
  }

  /**
   * In a plain-text file the project title is followed by a line of 50 `=`
   * and every chapter title by a line of 30 `-`.
   */
  lemma PlainTextTitleRule(d: ExportData)
    ensures StartsWith(Rendered(FormatOf(PlainText), d), ProjectTitle(d) + "\n" + Repeat('=', 50) + "\n")
  {
    TitleLine(FormatOf(PlainText), d, TitleRule);
  }

  /** A format whose title tail is a rule line between line breaks puts that rule under the title. */
  lemma TitleLine(f: Format, d: ExportData, rule: string)
    requires f.titleLead == "" && f.titleTail == "\n" + rule + "\n\n"
    ensures StartsWith(Rendered(f, d), ProjectTitle(d) + "\n" + rule + "\n")
  {
    var line := ProjectTitle(d) + "\n" + rule + "\n";
    var rest := "\n" + ChaptersText(f, d.chapters.GetOr([]));
    assert Header(f, ProjectTitle(d)) == line + "\n";
    assert Rendered(f, d) == line + rest;
    OccursLeft(line, rest);
  }

  lemma PlainTextChapterRule(d: ExportData, i: nat)
    requires i < |d.chapters.GetOr([])|
    ensures OccursAt(ChapterTitle(d.chapters.GetOr([])[i]) + "\n" + Repeat('-', 30) + "\n",
                     Rendered(FormatOf(PlainText), d), ChapterOffset(FormatOf(PlainText), d, i))
  {
    ChapterLine(FormatOf(PlainText), d, i, ChapterRule);
  }

  /** A format whose chapter tail is a rule line between line breaks puts that rule under each chapter title. */
  lemma ChapterLine(f: Format, d: ExportData, i: nat, rule: string)
    requires i < |d.chapters.GetOr([])|
    requires f.chapterLead == "" && f.chapterTail == "\n" + rule + "\n\n"
    ensures OccursAt(ChapterTitle(d.chapters.GetOr([])[i]) + "\n" + rule + "\n", Rendered(f, d), ChapterOffset(f, d, i))
  {
    var t := ChapterTitle(d.chapters.GetOr([])[i]);
    var line := t + "\n" + rule + "\n";
    ChapterHeadingAt(f, d, i);
    assert ChapterHeading(f, t) == line + "\n";
    OccursLeft(line, "\n");
    OccursWithin(line, ChapterHeading(f, t), 0, Rendered(f, d), ChapterOffset(f, d, i));
  }

  // ---------------------------------------------------------------------------
  // Dropping annotations and footnotes

  /** `scene.pop("annotations", None)` and `scene.pop("footnotes", None)` on a dictionary. */
  function StripScene(s: Scene): (r: Scene)
    ensures NotesOf(r, Annotation) == [] && NotesOf(r, Footnote) == []
    ensures SceneTitle(r) == SceneTitle(s) && SceneContent(r) == SceneContent(s)
    ensures r.Plain? <==> s.Plain?
    ensures r.Record? ==> r.annotations.None? && r.footnotes.None? && r.versions == s.versions
  {
    if s.Plain? then s else s.(annotations := None, footnotes := None)
  }

  function StripChapter(ch: Chapter): (r: Chapter)
  {
    if ch.scenes.None? then ch
    else ch.(scenes := Some(seq(|ch.scenes.value|, k requires 0 <= k < |ch.scenes.value| => StripScene(ch.scenes.value[k]))))
  }

  function StripAll(chapters: seq<Chapter>): (r: seq<Chapter>)
  {
    seq(|chapters|, i requires 0 <= i < |chapters| => StripChapter(chapters[i]))
  }

  /**
   * The dialog's loop over `export_data["chapters"]`: every dictionary scene
   * loses its `annotations` and `footnotes` keys, in place.
   */
  method StripAnnotations(chapters: seq<Chapter>) returns (r: seq<Chapter>)
    ensures r == StripAll(chapters)
  {
    r := chapters;
    for i := 0 to |r|
      invariant |r| == |chapters|
      invariant forall k :: 0 <= k < i ==> r[k] == StripChapter(chapters[k])
      invariant forall k :: i <= k < |r| ==> r[k] == chapters[k]
    {
      if r[i].scenes.Some? {
        var scenes := r[i].scenes.value;
        for j := 0 to |scenes|
          invariant |scenes| == |chapters[i].scenes.value|
          invariant forall k :: 0 <= k < j ==> scenes[k] == StripScene(chapters[i].scenes.value[k])
          invariant forall k :: j <= k < |scenes| ==> scenes[k] == chapters[i].scenes.value[k]
        {
          if scenes[j].Record? {
            scenes := scenes[j := scenes[j].(annotations := None, footnotes := None)];
          }
        }
        assert scenes == StripChapter(chapters[i]).scenes.value;
        r := r[i := r[i].(scenes := Some(scenes))];
      }
    }
  }

  /**
   * After stripping, no scene has an annotation or a footnote, and the
   * chapters, their titles, the scene count and every scene's title and
   * content are as they were.
   */
  lemma StripRemovesNotes(chapters: seq<Chapter>, c: nat, s: nat)
    requires c < |chapters|
    ensures var r := StripAll(chapters);
            && |r| == |chapters| && r[c].title == chapters[c].title
            && r[c].scenes.Some? == chapters[c].scenes.Some?
            && |r[c].scenes.GetOr([])| == |chapters[c].scenes.GetOr([])|
    ensures s < |chapters[c].scenes.GetOr([])| ==>
              var r := StripAll(chapters)[c].scenes.value[s];
              var orig := chapters[c].scenes.value[s];
              && NotesOf(r, Annotation) == [] && NotesOf(r, Footnote) == []
              && SceneTitle(r) == SceneTitle(orig) && SceneContent(r) == SceneContent(orig)
  {
  }

  lemma {:induction false} StripKeepsScenesText(f: Format, scenes: seq<Scene>, stripped: seq<Scene>)
    requires |stripped| == |scenes| && forall k :: 0 <= k < |scenes| ==> stripped[k] == StripScene(scenes[k])
    ensures ScenesText(f, stripped) == ScenesText(f, scenes)
  {
    if scenes != [] {
      var n := |scenes| - 1;
      StripKeepsScenesText(f, scenes[..n], stripped[..n]);
    }
  }

  lemma StripKeepsChapterText(f: Format, ch: Chapter)
    ensures ChapterText(f, StripChapter(ch)) == ChapterText(f, ch)
  {
    if ch.scenes.Some? {
      StripKeepsScenesText(f, ch.scenes.value, StripChapter(ch).scenes.value);
    }
  }

  lemma {:induction false} StripKeepsChaptersText(f: Format, chapters: seq<Chapter>)
    ensures ChaptersText(f, StripAll(chapters)) == ChaptersText(f, chapters)
  {
    if chapters != [] {
      var n := |chapters| - 1;
      assert StripAll(chapters)[..n] == StripAll(chapters[..n]);
      assert StripAll(chapters)[n] == StripChapter(chapters[n]);
      StripKeepsChaptersText(f, chapters[..n]);
      StripKeepsChapterText(f, chapters[n]);
    }
  }

  /**
   * The three text formats never show annotations or footnotes, so dropping
   * them changes nothing in those files (only the JSON export differs).
   */
  lemma StripKeepsText(f: Format, d: ExportData)
    ensures d.chapters.Some? ==>
              Rendered(f, d.(chapters := Some(StripAll(d.chapters.value)))) == Rendered(f, d)
  {
    if d.chapters.Some? {
      StripKeepsChaptersText(f, d.chapters.value);
    }
  }

  lemma {:induction false} StripIdempotent(chapters: seq<Chapter>)
    ensures StripAll(StripAll(chapters)) == StripAll(chapters)
  {
    var once := StripAll(chapters);
    forall i | 0 <= i < |chapters| ensures StripAll(once)[i] == once[i] {
      if chapters[i].scenes.Some? {
        var scenes := once[i].scenes.value;
        assert StripChapter(once[i]).scenes.value == scenes;
      }
    }
  }

  // ---------------------------------------------------------------------------
  // Extensions, filters and the worker's dispatch

  const Extensions: map<string, string> :=
    map["Markdown" := "md", "JSON" := "json", "Plain" := "txt", "Fountain" := "fountain"]

  const Filters: map<string, string> :=
    map["Markdown" := "Markdown Files (*.md)", "JSON" := "JSON Files (*.json)",
        "Plain" := "Text Files (*.txt)", "Fountain" := "Fountain Files (*.fountain)"]

  /** `_get_extension`: the table's entry, "txt" for any other format. */
  function GetExtension(format: string): (ext: string)
    ensures ext in {"md", "json", "txt", "fountain"}
    ensures ext == "txt" <==> format !in {"Markdown", "JSON", "Fountain"}
  {
    if format in Extensions then Extensions[format] else "txt"
  }

  /** `_get_file_filter`: the table's entry, "All Files (*)" for any other format. */
  function GetFileFilter(format: string): (filter: string)
    ensures format in Filters ==> EndsWith(filter, "(*." + GetExtension(format) + ")")
    ensures format !in Filters ==> !EndsWith(filter, "(*." + GetExtension(format) + ")")
  {
    if format in Filters then
      FilterNamesExtension(format);
      Filters[format]
    else
      assert "All Files (*)"[11] != "(*.txt)"[5];
      "All Files (*)"
  }

  /** A known format's filter ends with the pattern of its extension. */
  lemma FilterNamesExtension(format: string)
    requires format in Filters
    ensures EndsWith(Filters[format], "(*." + Extensions[format] + ")")
  {
    var ext := Extensions[format];
    var lead := if format == "Markdown" then "Markdown Files "
                else if format == "JSON" then "JSON Files "
                else if format == "Plain" then "Text Files "
                else "Fountain Files ";
    assert Filters[format] == lead + "(*." + ext + ")";
    EndsWithPattern(lead, ext);
  }

  lemma EndsWithPattern(lead: string, ext: string)
    ensures EndsWith(lead + "(*." + ext + ")", "(*." + ext + ")")
  {
    assert (lead + "(*." + ext + ")")[|lead|..] == "(*." + ext + ")";
  }

  /**
   * The two tables cover the same formats, and a known format's filter
   * matches the files its extension names; any other format gets the "txt"
   * extension and the catch-all filter.
   */
  lemma FilterMatchesExtension(format: string)
    ensures format in Extensions <==> format in Filters
    ensures format in Extensions ==> IsSubstring("(*." + GetExtension(format) + ")", GetFileFilter(format))
    ensures format !in Extensions ==> GetExtension(format) == "txt" && GetFileFilter(format) == "All Files (*)"
  {
    if format == "Markdown" {
      FilterEnds("Markdown Files ", "md", Filters[format]);
    } else if format == "JSON" {
      FilterEnds("JSON Files ", "json", Filters[format]);
    } else if format == "Plain" {
      FilterEnds("Text Files ", "txt", Filters[format]);
    } else if format == "Fountain" {
      FilterEnds("Fountain Files ", "fountain", Filters[format]);
    }
  }

  lemma FilterEnds(lead: string, ext: string, filter: string)
    requires filter == lead + "(*." + ext + ")"
    ensures IsSubstring("(*." + ext + ")", filter)
  {
    assert filter == lead + ("(*." + ext + ")") + "";
    SubstringOfConcat(lead, "(*." + ext + ")", "");
  }

  /** What the worker writes: nothing, a text file, or the export data as JSON. */
  datatype Written = Nothing | TextFile(content: string) | JsonFile(data: ExportData)

  /** The worker's progress values, file and final message. */
  datatype RunResult = RunResult(progress: seq<int>, file: Written, message: string)

  /** Which exporter a format name reaches. */
  datatype Target = TextExport(style: Style) | JsonExport

  /** The format names `run` tests, as written. */
  function TargetAsWritten(format: string): Option<Target>
  {
    if format == "Markdown" then Some(TextExport(Markdown))
    else if format == "JSON" then Some(JsonExport)
    else if format == "Plain Text" then Some(TextExport(PlainText))
    else if format == "Fountain" then Some(TextExport(Fountain))
    else None
  }

  /** The format names `run` evidently means to accept: also "Plain", the name the dialog passes. */
  function TargetOf(format: string): (r: Option<Target>)
    ensures format != "Plain" ==> r == TargetAsWritten(format)
  {
    if format == "Plain" then Some(TextExport(PlainText)) else TargetAsWritten(format)
  }

  /**
   * The body of `run` once the exporter is chosen: an unknown format sends
   * "not yet implemented" and writes nothing; an error while writing
   * (`writeError`) becomes "Export failed: ..."; otherwise the file is
   * written and progress reaches 100.
   */
  function Outcome(target: Option<Target>, format: string, d: ExportData, path: string,
                   writeError: Option<string>): (r: RunResult)
    ensures target.None? ==> r == RunResult([25], Nothing, "Export format '" + format + "' not yet implemented")
    ensures target.Some? && writeError.Some? ==> r == RunResult([25], Nothing, "Export failed: " + writeError.value)
    ensures target.Some? && writeError.None? ==>
              && r.progress == [25, 100] && r.message == "Successfully exported to " + path
              && (target.value.JsonExport? ==> r.file == JsonFile(d))
              && (target.value.TextExport? ==> r.file == TextFile(Rendered(FormatOf(target.value.style), d)))
  {
    if target.None? then RunResult([25], Nothing, "Export format '" + format + "' not yet implemented")
    else if writeError.Some? then RunResult([25], Nothing, "Export failed: " + writeError.value)
    else
      var file := if target.value.JsonExport? then JsonFile(d) else TextFile(Rendered(FormatOf(target.value.style), d));
      RunResult([25, 100], file, "Successfully exported to " + path)
  }

  /** The format names `run` tests for, as written. */
  const RunFormats: set<string> := {"Markdown", "JSON", "Plain Text", "Fountain"}

  /**
   * `ExportWorker.run` as written: a file is written exactly for one of the
   * four names it tests and a write that does not fail; the JSON file for
   * "JSON" only.
   */
  function RunAsWritten(format: string, d: ExportData, path: string, writeError: Option<string>): (r: RunResult)
    ensures r.file != Nothing <==> format in RunFormats && writeError.None?
    ensures r.progress == [25, 100] <==> r.file != Nothing
    ensures r.file.JsonFile? <==> format == "JSON" && writeError.None?
    ensures format == "Plain Text" && writeError.None? ==> r.file == TextFile(Rendered(FormatOf(PlainText), d))
  {
    Outcome(TargetAsWritten(format), format, d, path, writeError)
  }

  /**
   * `ExportWorker.run` with the plain-text branch reachable under the
   * dialog's name for it: "Plain" does what "Plain Text" does, and every
   * other name is handled as written.
   */
  function Run(format: string, d: ExportData, path: string, writeError: Option<string>): (r: RunResult)
    ensures format != "Plain" ==> r == RunAsWritten(format, d, path, writeError)
    ensures format == "Plain" ==> r == RunAsWritten("Plain Text", d, path, writeError)
    ensures r.file != Nothing <==> format in RunFormats + {"Plain"} && writeError.None?
  {
    Outcome(TargetOf(format), format, d, path, writeError)
  }

  // ---------------------------------------------------------------------------
  // The dialog

  /** The entries of the format box, top to bottom. */
  const ComboItems: seq<string> :=
    ["Markdown (.md)", "Plain Text (.txt)", "JSON (.json)", "Fountain (.fountain)",
     "DOCX (Word Document) - Coming Soon", "PDF - Coming Soon"]

  /** `text.split()[0]` for a text that starts with a word: the characters up to the first whitespace. */
  function FirstWord(text: string): (w: string)
    ensures StartsWith(text, w) && forall c :: c in w ==> !IsSpace(c)
    ensures |w| < |text| ==> IsSpace(text[|w|])
  {
    if text == [] || IsSpace(text[0]) then [] else [text[0]] + FirstWord(text[1..])
  }

  lemma {:induction false} FirstWordOf(w: string, rest: string)
    requires forall c :: c in w ==> !IsSpace(c)
    requires rest != [] && IsSpace(rest[0])
    ensures FirstWord(w + rest) == w
  {
    if w != [] {
      assert (w + rest)[1..] == w[1..] + rest;
      FirstWordOf(w[1..], rest);
    }
  }

  predicate ComingSoon(text: string)
  {
    IsSubstring("Coming Soon", text)
  }

  /** The file dialog's suggested name and filter. */
  datatype SaveDialog = SaveDialog(defaultName: string, filter: string)

  /** How `_start_export` ends. */
  datatype Start =
    | NotImplementedNotice(message: string)
    | SaveCancelled(dialog: SaveDialog)
    | Started(dialog: SaveDialog, data: ExportData, format: string, path: string)

  /** `f"{title or 'project'}.{extension}"` with the project's `title` (default "project"). */
  function DefaultName(d: ExportData, format: string): (name: string)
    ensures EndsWith(name, "." + GetExtension(format))
  {
    var stem := d.title.GetOr("project");
    assert stem + "." + GetExtension(format) == stem + ("." + GetExtension(format));
    stem + "." + GetExtension(format)
  }

  /**
   * What `_start_export` shows or starts, given the export data it sends: a
   * "Coming Soon" entry only gets the notice; otherwise the save dialog
   * offers the format's filter and a name with its extension, and the worker
   * starts exactly when a path was chosen.
   */
  function StartFor(d: ExportData, comboText: string, sent: ExportData, path: string): (r: Start)
    ensures r.NotImplementedNotice? <==> ComingSoon(comboText)
    ensures r.Started? <==> !ComingSoon(comboText) && path != ""
    ensures r.Started? ==> r.data == sent && r.path == path && r.format == FirstWord(comboText)
    ensures !r.NotImplementedNotice? ==>
              && r.dialog.filter == GetFileFilter(FirstWord(comboText))
              && EndsWith(r.dialog.defaultName, "." + GetExtension(FirstWord(comboText)))
  {
    var format := FirstWord(comboText);
    if ComingSoon(comboText) then
      NotImplementedNotice(format + " export is not yet implemented. Please choose another format.")
    else
      var dialog := SaveDialog(DefaultName(d, format), GetFileFilter(format));
      if path == "" then SaveCancelled(dialog) else Started(dialog, sent, format, path)
  }

  /**
   * `_start_export` on a copy of the project data: with the annotation box
   * unchecked the worker gets the data without annotations and footnotes;
   * `path` is the file dialog's answer ("" when cancelled).
   */
  method StartExport(d: ExportData, comboText: string, includeAnnotations: bool, path: string)
    returns (r: Start)
    ensures var sent := if includeAnnotations || d.chapters.None? then d
                        else d.(chapters := Some(StripAll(d.chapters.value)));
            r == StartFor(d, comboText, sent, path)
  {
    var format := FirstWord(comboText);
    if ComingSoon(comboText) {
      return NotImplementedNotice(format + " export is not yet implemented. Please choose another format.");
    }
    var dialog := SaveDialog(DefaultName(d, format), GetFileFilter(format));
    if path == "" {
      return SaveCancelled(dialog);
    }
    var sent := d;
    if !includeAnnotations && d.chapters.Some? {
      var stripped := StripAnnotations(d.chapters.value);
      sent := d.(chapters := Some(stripped));
    }
    return Started(dialog, sent, format, path);
  }

  /**
   * `_start_export` as written, on the data the editor window builds
   * (`"chapters": self.chapters`): `dict(...)` copies only the outer
   * dictionary, so the scene dictionaries it pops keys from are the
   * editor's own.
   */
  method StartExportAsWritten(w: ProjectEditorWindow, comboText: string, includeAnnotations: bool, path: string)
    returns (r: Start)
    modifies w
    ensures w.chapterItems == old(w.chapterItems) && w.chapterRow == old(w.chapterRow)
    ensures w.sceneItems == old(w.sceneItems) && w.sceneRow == old(w.sceneRow)
    ensures var d := EditorExportData(old(w.chapters));
            var stripping := !ComingSoon(comboText) && path != "" && !includeAnnotations;
            && w.chapters == (if stripping then StripAll(old(w.chapters)) else old(w.chapters))
            && r == StartFor(d, comboText, EditorExportData(w.chapters), path)
  {
    var d := EditorExportData(w.chapters);
    var format := FirstWord(comboText);
    if ComingSoon(comboText) {
      return NotImplementedNotice(format + " export is not yet implemented. Please choose another format.");
    }
    var dialog := SaveDialog(DefaultName(d, format), GetFileFilter(format));
    if path == "" {
      return SaveCancelled(dialog);
    }
    if !includeAnnotations {
      w.chapters := StripAnnotations(w.chapters);
    }
    return Started(dialog, EditorExportData(w.chapters), format, path);
  }

  /**
   * As written, an export without annotations empties the editor's own
   * annotation and footnote lists for every scene that had any.
   */
  lemma ExportStripsEditorNotes(chapters: seq<Chapter>, c: nat, s: nat)
    requires HasScene(chapters, c, s) && NotesOf(SceneAt(chapters, c, s), Annotation) != []
    ensures HasScene(StripAll(chapters), c, s)
    ensures NotesOf(SceneAt(StripAll(chapters), c, s), Annotation) == []
    ensures StripAll(chapters) != chapters
  {
    StripRemovesNotes(chapters, c, s);
    assert StripAll(chapters)[c].scenes.value[s] != chapters[c].scenes.value[s];
  }

  lemma ComboMarkdown()
    ensures FirstWord(ComboItems[0]) == "Markdown"
  {
    FirstWordOf("Markdown", " (.md)");
    assert ComboItems[0] == "Markdown" + " (.md)";
  }

  lemma ComboPlain()
    ensures FirstWord(ComboItems[1]) == "Plain"
  {
    FirstWordOf("Plain", " Text (.txt)");
    assert ComboItems[1] == "Plain" + " Text (.txt)";
  }

  lemma ComboJSON()
    ensures FirstWord(ComboItems[2]) == "JSON"
  {
    FirstWordOf("JSON", " (.json)");
    assert ComboItems[2] == "JSON" + " (.json)";
  }

  lemma ComboFountain()
    ensures FirstWord(ComboItems[3]) == "Fountain"
  {
    FirstWordOf("Fountain", " (.fountain)");
    assert ComboItems[3] == "Fountain" + " (.fountain)";
  }

  /** The format names the dialog sends for the implemented entries of its box. */
  lemma ComboFormats()
    ensures FirstWord(ComboItems[0]) == "Markdown"
    ensures FirstWord(ComboItems[1]) == "Plain"
    ensures FirstWord(ComboItems[2]) == "JSON"
    ensures FirstWord(ComboItems[3]) == "Fountain"
  {
    ComboMarkdown();
    ComboPlain();
    ComboJSON();
    ComboFountain();
  }

  /**
   * As written, choosing "Plain Text (.txt)" never exports: the dialog sends
   * "Plain", which `run` does not recognise, so nothing is written.
   */
  lemma PlainTextNotExported(d: ExportData, path: string, writeError: Option<string>)
    ensures FirstWord(ComboItems[1]) == "Plain"
    ensures RunAsWritten(FirstWord(ComboItems[1]), d, path, writeError)
              == RunResult([25], Nothing, "Export format '" + FirstWord(ComboItems[1]) + "' not yet implemented")
  {
    ComboPlain();
    NotRecognised("Plain", d, path, writeError);
  }

  /** A name `run` does not test for gets the "not yet implemented" message and no file. */
  lemma NotRecognised(format: string, d: ExportData, path: string, writeError: Option<string>)
    requires TargetAsWritten(format).None?
    ensures RunAsWritten(format, d, path, writeError)
              == RunResult([25], Nothing, "Export format '" + format + "' not yet implemented")
  {
  }

  /**
   * With "Plain" accepted, each of the four implemented entries of the box
   * reaches an exporter: a successful run writes the file that entry names,
   * the text formats writing the rendered project.
   */
  lemma EveryListedFormatExports(d: ExportData, path: string, i: nat)
    requires i < 4
    ensures var r := Run(FirstWord(ComboItems[i]), d, path, None);
            && r.message == "Successfully exported to " + path && r.progress == [25, 100]
            && r.file == (match i
                          case 0 => TextFile(Rendered(FormatOf(Markdown), d))
                          case 1 => TextFile(Rendered(FormatOf(PlainText), d))
                          case 2 => JsonFile(d)
                          case _ => TextFile(Rendered(FormatOf(Fountain), d)))
  {
    if i == 0 {
      ExportsMarkdown(d, path);
    } else if i == 1 {
      ExportsPlain(d, path);
    } else if i == 2 {
      ExportsJSON(d, path);
    } else {
      ExportsFountain(d, path);
    }
  }

  lemma ExportsMarkdown(d: ExportData, path: string)
    ensures Run(FirstWord(ComboItems[0]), d, path, None) == RunResult([25, 100], TextFile(Rendered(FormatOf(Markdown), d)), "Successfully exported to " + path)
  {
    ComboMarkdown();
  }

  lemma ExportsPlain(d: ExportData, path: string)
    ensures Run(FirstWord(ComboItems[1]), d, path, None) == RunResult([25, 100], TextFile(Rendered(FormatOf(PlainText), d)), "Successfully exported to " + path)
  {
    ComboPlain();
  }

  lemma ExportsJSON(d: ExportData, path: string)
    ensures Run(FirstWord(ComboItems[2]), d, path, None) == RunResult([25, 100], JsonFile(d), "Successfully exported to " + path)
  {
    ComboJSON();
  }

  lemma ExportsFountain(d: ExportData, path: string)
    ensures Run(FirstWord(ComboItems[3]), d, path, None) == RunResult([25, 100], TextFile(Rendered(FormatOf(Fountain), d)), "Successfully exported to " + path)
  {
    ComboFountain();
  }
}
