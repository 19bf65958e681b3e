/** ResearchEngine.meta_analyze: gather snippets about a topic from the
    vector-search hits and from the Markdown files of three fixed
    directories, merge the first eight into one context, and choose the
    prompt template and task type handed to the reasoning component.

    The search facade, the directory walk and the reasoning component are
    inputs here: the hits arrive as a value, each directory as the sequence
    of file lists its walk visits, and the result names the prompt and task
    type the component would receive. */
module Retrieval {
  import opened Text

  // ---------------------------------------------------------------------
  // Inputs

  datatype Hit = Hit(source: string, content: string)

  /** The outcome of the vector search: it raised, or it returned hits. */
  datatype RagOutcome = SearchFailed | Hits(hits: seq<Hit>)

  datatype FileBody = Readable(content: string) | Unreadable

  datatype FileEntry = FileEntry(name: string, body: FileBody)

  /** The file lists of the folders a directory walk visits, in walk order;
      the first is the directory's own top-level folder. */
  type Walk = seq<seq<FileEntry>>

  /** The searched directories that exist, by name; a name that is not a
      key is a directory that does not exist. */
  type FileSystem = map<string, Walk>

  // ---------------------------------------------------------------------
  // Constants

  const SearchDirs: seq<string> := ["01-Analysis", "02-Literature", "03-Vault"]
  const ExcerptLimit: nat := 1000
  const Cap: nat := 10
  const ContextLimit: nat := 8
  const ContextSeparator := "\n\n"
  const MarkdownSuffix := ".md"

  // ---------------------------------------------------------------------
  // Snippets

  datatype Snippet =
    | RagSnippet(source: string, excerpt: string)
    | FileSnippet(dir: string, file: string, excerpt: string)

  /** The text a snippet contributes to the context: it names where the
      snippet comes from and carries the whole excerpt. */
  function Render(s: Snippet): (r: string)
    ensures |r| > 0
    ensures Contains(r, s.excerpt)
    ensures s.RagSnippet? ==> Contains(r, s.source)
    ensures s.FileSnippet? ==> Contains(r, s.dir) && Contains(r, s.file)
    ensures s.FileSnippet? ==> EndsWith(r, s.excerpt + "...")
    ensures s.RagSnippet? ==> EndsWith(r, s.excerpt)
  {
    match s
    case RagSnippet(source, excerpt) =>
      var head := "Source (OneDrive): ";
      var mid := "\nContent:\n";
      ContainsInfix(head, source, mid + excerpt);
      assert head + source + mid + excerpt == head + source + (mid + excerpt);
      ContainsInfix(head + source + mid, excerpt, []);
      assert head + source + mid + excerpt + [] == head + source + mid + excerpt;
      head + source + mid + excerpt
    case FileSnippet(dir, file, excerpt) =>
      var head := "Source (";
      var r := head + dir + "/" + file + "): " + excerpt + "...";
      ContainsInfix(head, dir, "/" + file + "): " + excerpt + "...");
      assert r == head + dir + ("/" + file + "): " + excerpt + "...");
      ContainsInfix(head + dir + "/", file, "): " + excerpt + "...");
      assert r == head + dir + "/" + file + ("): " + excerpt + "...");
      ContainsInfix(head + dir + "/" + file + "): ", excerpt, "...");
      assert r == (head + dir + "/" + file + "): ") + (excerpt + "...");
      r
  }

  function SnippetOfHit(h: Hit): (s: Snippet)
    ensures s.RagSnippet? && s.source == h.source
    ensures |s.excerpt| == Min(ExcerptLimit, |h.content|) && s.excerpt == h.content[..|s.excerpt|]
  {
    RagSnippet(h.source, Take(h.content, ExcerptLimit))
  }

  /** One snippet per hit, in hit order. */
  function RagSnippets(hits: seq<Hit>): (r: seq<Snippet>)
    ensures |r| == |hits|
    ensures forall i :: 0 <= i < |hits| ==> r[i] == SnippetOfHit(hits[i])
  {
    seq(|hits|, i requires 0 <= i < |hits| => SnippetOfHit(hits[i]))
  }

  function HitsOf(rag: RagOutcome): seq<Hit>
  {
    if rag.Hits? then rag.hits else []
  }

  /** A file yields a snippet when it is Markdown, can be read, and its
      lower-cased text contains the lower-cased topic; an empty topic
      matches every readable Markdown file. */
  predicate IsMatch(topic: string, f: FileEntry)
    ensures IsMatch(topic, f) ==>
              EndsWith(f.name, MarkdownSuffix) && f.body.Readable? &&
              Contains(Lower(f.body.content), Lower(topic))
    ensures topic == [] && EndsWith(f.name, MarkdownSuffix) && f.body.Readable? ==> IsMatch(topic, f)
  {
    EndsWith(f.name, MarkdownSuffix) && f.body.Readable? &&
    Contains(Lower(f.body.content), Lower(topic))
  }

  /** Matching ignores the letter case of the topic. */
  lemma MatchIgnoresTopicCase(topic: string, f: FileEntry)
    ensures IsMatch(Lower(topic), f) == IsMatch(topic, f)
  {
    LowerIdempotent(topic);
  }

  function SnippetOfFile(dir: string, f: FileEntry): (s: Snippet)
    requires f.body.Readable?
    ensures s.FileSnippet? && s.dir == dir && s.file == f.name
    ensures |s.excerpt| == Min(ExcerptLimit, |f.body.content|)
    ensures s.excerpt == f.body.content[..|s.excerpt|]
  {
    FileSnippet(dir, f.name, Take(f.body.content, ExcerptLimit))
  }

  // ---------------------------------------------------------------------
  // The scan as the loops perform it: each function continues from the
  // snippets gathered so far (`acc`).

  /** The loop over one folder's files: stop right after an append that
      brings the count to the cap. */
  function ScanFiles(topic: string, dir: string, files: seq<FileEntry>, acc: seq<Snippet>): seq<Snippet>
    decreases |files|
  {
    if files == [] then acc
    else if IsMatch(topic, files[0]) then
      var more := acc + [SnippetOfFile(dir, files[0])];
      if |more| >= Cap then more else ScanFiles(topic, dir, files[1..], more)
    else ScanFiles(topic, dir, files[1..], acc)
  }

  /** The loop over a directory's walk: after each folder, stop once the
      count has reached the cap. */
  function ScanWalk(topic: string, dir: string, walk: Walk, acc: seq<Snippet>): seq<Snippet>
    decreases |walk|
  {
    if walk == [] then acc
    else
      var after := ScanFiles(topic, dir, walk[0], acc);
      if |after| >= Cap then after else ScanWalk(topic, dir, walk[1..], after)
  }

  /** The loop over the directories, which never stops early; a missing
      directory is skipped. */
  function ScanDirs(topic: string, dirs: seq<string>, fs: FileSystem, acc: seq<Snippet>): seq<Snippet>
    decreases |dirs|
  {
    if dirs == [] then acc
    else
      var after := if dirs[0] in fs then ScanWalk(topic, dirs[0], fs[dirs[0]], acc) else acc;
      ScanDirs(topic, dirs[1..], fs, after)
  }

  /** Everything `meta_analyze` collects before the merge. */
  function Collected(topic: string, rag: RagOutcome, fs: FileSystem): seq<Snippet>
  {
    ScanDirs(topic, SearchDirs, fs, RagSnippets(HitsOf(rag)))
  }

  // ---------------------------------------------------------------------
  // The collection loop itself

  method CollectSnippets(topic: string, rag: RagOutcome, fs: FileSystem) returns (matched: seq<Snippet>)
    ensures matched == Collected(topic, rag, fs)
  {
    matched := [];
    if rag.Hits? {
      var hits := rag.hits;
      var h := 0;
      while h < |hits|
        invariant 0 <= h <= |hits|
        invariant matched == RagSnippets(hits[..h])
      {
        matched := matched + [SnippetOfHit(hits[h])];
        h := h + 1;
      }
      assert hits[..h] == hits;
    }
    ghost var total := Collected(topic, rag, fs);
    var i := 0;
    while i < |SearchDirs|
      invariant 0 <= i <= |SearchDirs|
      invariant ScanDirs(topic, SearchDirs[i..], fs, matched) == total
    {
      var dir := SearchDirs[i];
      assert SearchDirs[i..][1..] == SearchDirs[i + 1..];
      if dir in fs {
        var walk := fs[dir];
        var j := 0;
        while j < |walk|
          invariant 0 <= j <= |walk|
          invariant ScanDirs(topic, SearchDirs[i + 1..], fs, ScanWalk(topic, dir, walk[j..], matched)) == total
        {
          var files := walk[j];
          assert walk[j..][1..] == walk[j + 1..];
          var k := 0;
          while k < |files|
            invariant 0 <= k <= |files|
            invariant
              var after := ScanFiles(topic, dir, files[k..], matched);
              ScanDirs(topic, SearchDirs[i + 1..], fs,
                       if |after| >= Cap then after else ScanWalk(topic, dir, walk[j + 1..], after)) == total
          {
            var f := files[k];
            assert files[k..][1..] == files[k + 1..];
            if EndsWith(f.name, MarkdownSuffix) && f.body.Readable? {
              if Contains(Lower(f.body.content), Lower(topic)) {
                matched := matched + [SnippetOfFile(dir, f)];
                if |matched| >= Cap {
                  assert ScanDirs(topic, SearchDirs[i + 1..], fs, matched) == total;
                  break;
                }
              }
            }
            k := k + 1;
          }
          if |matched| >= Cap {
            break;
          }
          j := j + 1;
        }
      }
      i := i + 1;
    }
  }

  // ---------------------------------------------------------------------
  // An independent description of the result: each directory contributes
  // a prefix of its matching files.

  /** All matching files of a file list, in order. */
  function Matches(topic: string, dir: string, files: seq<FileEntry>): (r: seq<Snippet>)
    ensures |r| <= |files|
  {
    if files == [] then []
    else
      (if IsMatch(topic, files[0]) then [SnippetOfFile(dir, files[0])] else [])
      + Matches(topic, dir, files[1..])
  }

  function Flatten(walk: Walk): seq<FileEntry>
  {
    if walk == [] then [] else walk[0] + Flatten(walk[1..])
  }

  /** What a directory adds when `count` snippets precede it: below the
      cap, its matches in walk order up to the cap; at or above the cap,
      at most the first match of its top-level folder. */
  function Contribution(topic: string, dir: string, fs: FileSystem, count: nat): seq<Snippet>
  {
    if dir !in fs then []
    else if count >= Cap then
      (if fs[dir] == [] then [] else Take(Matches(topic, dir, fs[dir][0]), 1))
    else Take(Matches(topic, dir, Flatten(fs[dir])), Cap - count)
  }

  function ReferenceDirs(topic: string, dirs: seq<string>, fs: FileSystem, acc: seq<Snippet>): seq<Snippet>
    decreases |dirs|
  {
    if dirs == [] then acc
    else ReferenceDirs(topic, dirs[1..], fs, acc + Contribution(topic, dirs[0], fs, |acc|))
  }

  lemma {:induction false} MatchesAppend(topic: string, dir: string, a: seq<FileEntry>, b: seq<FileEntry>)
    ensures Matches(topic, dir, a + b) == Matches(topic, dir, a) + Matches(topic, dir, b)
    decreases |a|
  {
    if a != [] {
      assert (a + b)[1..] == a[1..] + b;
      MatchesAppend(topic, dir, a[1..], b);
    } else {
      assert a + b == b;
    }
  }

  lemma TakeCons<T>(x: T, s: seq<T>, n: nat)
    requires n >= 1
    ensures Take([x] + s, n) == [x] + Take(s, n - 1)
  {
  }

  lemma TakeAppend<T>(a: seq<T>, b: seq<T>, n: nat)
    ensures |a| >= n ==> Take(a + b, n) == Take(a, n)
    ensures |a| <= n ==> Take(a + b, n) == a + Take(b, n - |a|)
  {
  }

  /** The files loop adds a prefix of the folder's matches: up to the cap,
      or exactly one match when the cap is already reached. */
  lemma {:induction false} ScanFilesAdds(topic: string, dir: string, files: seq<FileEntry>, acc: seq<Snippet>)
    ensures ScanFiles(topic, dir, files, acc)
         == acc + Take(Matches(topic, dir, files), if |acc| >= Cap then 1 else Cap - |acc|)
    decreases |files|
  {
    var n := if |acc| >= Cap then 1 else Cap - |acc|;
    if files == [] {
      assert Matches(topic, dir, files) == [];
    } else {
      var rest := Matches(topic, dir, files[1..]);
      if IsMatch(topic, files[0]) {
        var s := SnippetOfFile(dir, files[0]);
        var more := acc + [s];
        assert Matches(topic, dir, files) == [s] + rest;
        TakeCons(s, rest, n);
        if |more| >= Cap {
          assert n == 1;
          assert Take(rest, 0) == [];
        } else {
          ScanFilesAdds(topic, dir, files[1..], more);
          assert n - 1 == Cap - |more|;
        }
      } else {
        assert Matches(topic, dir, files) == rest;
        ScanFilesAdds(topic, dir, files[1..], acc);
      }
    }
  }

  /** The walk loop adds exactly the directory's contribution. */
  lemma {:induction false} ScanWalkAdds(topic: string, dir: string, fs: FileSystem, walk: Walk, acc: seq<Snippet>)
    requires dir in fs && walk == fs[dir]
    ensures ScanWalk(topic, dir, walk, acc) == acc + Contribution(topic, dir, fs, |acc|)
  {
    WalkAdds(topic, dir, walk, acc);
  }

  lemma {:induction false} WalkAdds(topic: string, dir: string, walk: Walk, acc: seq<Snippet>)
    ensures ScanWalk(topic, dir, walk, acc)
         == acc + (if |acc| >= Cap then
                     (if walk == [] then [] else Take(Matches(topic, dir, walk[0]), 1))
                   else Take(Matches(topic, dir, Flatten(walk)), Cap - |acc|))
    decreases |walk|
  {
    if walk != [] {
      var m0 := Matches(topic, dir, walk[0]);
      var mr := Matches(topic, dir, Flatten(walk[1..]));
      ScanFilesAdds(topic, dir, walk[0], acc);
      MatchesAppend(topic, dir, walk[0], Flatten(walk[1..]));
      assert Matches(topic, dir, Flatten(walk)) == m0 + mr;
      var after := ScanFiles(topic, dir, walk[0], acc);
      if |acc| < Cap {
        TakeAppend(m0, mr, Cap - |acc|);
        if |after| < Cap {
          assert after == acc + m0;
          WalkAdds(topic, dir, walk[1..], after);
        }
      }
    }
  }

  lemma {:induction false} ScanDirsIsReference(topic: string, dirs: seq<string>, fs: FileSystem, acc: seq<Snippet>)
    ensures ScanDirs(topic, dirs, fs, acc) == ReferenceDirs(topic, dirs, fs, acc)
    decreases |dirs|
  {
    if dirs != [] {
      if dirs[0] in fs {
        ScanWalkAdds(topic, dirs[0], fs, fs[dirs[0]], acc);
      } else {
        assert acc + Contribution(topic, dirs[0], fs, |acc|) == acc;
      }
      ScanDirsIsReference(topic, dirs[1..], fs, acc + Contribution(topic, dirs[0], fs, |acc|));
    }
  }

  /** The collected snippets are the hits' snippets followed by each
      directory's contribution, in the fixed directory order. */
  lemma CollectedIsReference(topic: string, rag: RagOutcome, fs: FileSystem)
    ensures
      var r0 := RagSnippets(HitsOf(rag));
      var r1 := r0 + Contribution(topic, SearchDirs[0], fs, |r0|);
      var r2 := r1 + Contribution(topic, SearchDirs[1], fs, |r1|);
      Collected(topic, rag, fs) == r2 + Contribution(topic, SearchDirs[2], fs, |r2|)
  {
    ScanDirsIsReference(topic, SearchDirs, fs, RagSnippets(HitsOf(rag)));
    assert SearchDirs[1..][1..][1..] == [];
  }

  // ---------------------------------------------------------------------
  // Consequences of the characterisation

  /** All matching files of a directory, in walk order; none when the
      directory is missing. */
  function AllMatches(topic: string, dir: string, fs: FileSystem): seq<Snippet>
  {
    if dir in fs then Matches(topic, dir, Flatten(fs[dir])) else []
  }

  lemma ContributionSize(topic: string, dir: string, fs: FileSystem, count: nat)
    ensures |Contribution(topic, dir, fs, count)| <= if count >= Cap then 1 else Cap - count
    ensures count < Cap ==>
              Contribution(topic, dir, fs, count) == Take(AllMatches(topic, dir, fs), Cap - count)
  {
  }

  /** The hits' snippets come first, in hit order. */
  lemma HitsComeFirst(topic: string, rag: RagOutcome, fs: FileSystem)
    ensures |Collected(topic, rag, fs)| >= |HitsOf(rag)|
    ensures Collected(topic, rag, fs)[..|HitsOf(rag)|] == RagSnippets(HitsOf(rag))
  {
    CollectedIsReference(topic, rag, fs);
  }

  /** The cap is not global: each directory after the one that reaches it
      can still add one snippet, so the count can pass the cap by up to
      one per remaining directory, and no further. */
  lemma CollectedBound(topic: string, rag: RagOutcome, fs: FileSystem)
    ensures |Collected(topic, rag, fs)| <= Max(|HitsOf(rag)|, Cap - 1) + |SearchDirs|
  {
    CollectedIsReference(topic, rag, fs);
    var r0 := RagSnippets(HitsOf(rag));
    var c1 := Contribution(topic, SearchDirs[0], fs, |r0|);
    var r1 := r0 + c1;
    var c2 := Contribution(topic, SearchDirs[1], fs, |r1|);
    var r2 := r1 + c2;
    ContributionSize(topic, SearchDirs[0], fs, |r0|);
    ContributionSize(topic, SearchDirs[1], fs, |r1|);
    ContributionSize(topic, SearchDirs[2], fs, |r2|);
  }

  /** When the hits fall short of the cap, the first directory's top
      folder holds enough matches to reach it and each later directory's
      top folder holds a match, the result has two snippets more than the
      cap. */
  lemma CapCanBeExceeded(topic: string, rag: RagOutcome, fs: FileSystem)
    requires |HitsOf(rag)| < Cap
    requires forall d :: d in SearchDirs ==> d in fs && fs[d] != []
    requires |Matches(topic, SearchDirs[0], fs[SearchDirs[0]][0])| >= Cap - |HitsOf(rag)|
    requires Matches(topic, SearchDirs[1], fs[SearchDirs[1]][0]) != []
    requires Matches(topic, SearchDirs[2], fs[SearchDirs[2]][0]) != []
    ensures |Collected(topic, rag, fs)| == Cap + 2
  {
    CollectedIsReference(topic, rag, fs);
    var w := fs[SearchDirs[0]];
    MatchesAppend(topic, SearchDirs[0], w[0], Flatten(w[1..]));
    assert Flatten(w) == w[0] + Flatten(w[1..]);
  }

  /** Nothing is collected exactly when the search gave no hits and no
      existing directory holds a matching file. */
  lemma NoResultsIff(topic: string, rag: RagOutcome, fs: FileSystem)
    ensures Collected(topic, rag, fs) == [] <==>
              HitsOf(rag) == [] &&
              forall d :: d in SearchDirs ==> AllMatches(topic, d, fs) == []
  {
    CollectedIsReference(topic, rag, fs);
    var r0 := RagSnippets(HitsOf(rag));
    if r0 == [] {
      ContributionSize(topic, SearchDirs[0], fs, 0);
      var r1 := Contribution(topic, SearchDirs[0], fs, 0);
      if r1 == [] {
        ContributionSize(topic, SearchDirs[1], fs, 0);
        var r2 := Contribution(topic, SearchDirs[1], fs, 0);
        if r2 == [] {
          ContributionSize(topic, SearchDirs[2], fs, 0);
        }
      }
    }
  }

  /** Below the cap every matching file is collected: the result is the
      hits' snippets followed by all matches of each directory in turn. */
  lemma UncappedCollectsAll(topic: string, rag: RagOutcome, fs: FileSystem)
    requires |HitsOf(rag)| + |AllMatches(topic, SearchDirs[0], fs)| + |AllMatches(topic, SearchDirs[1], fs)|
             + |AllMatches(topic, SearchDirs[2], fs)| < Cap
    ensures Collected(topic, rag, fs)
         == RagSnippets(HitsOf(rag)) + AllMatches(topic, SearchDirs[0], fs)
            + AllMatches(topic, SearchDirs[1], fs) + AllMatches(topic, SearchDirs[2], fs)
  {
    CollectedIsReference(topic, rag, fs);
    var r0 := RagSnippets(HitsOf(rag));
    ContributionSize(topic, SearchDirs[0], fs, |r0|);
    var r1 := r0 + AllMatches(topic, SearchDirs[0], fs);
    ContributionSize(topic, SearchDirs[1], fs, |r1|);
    var r2 := r1 + AllMatches(topic, SearchDirs[1], fs);
    ContributionSize(topic, SearchDirs[2], fs, |r2|);
  }

  /** Where a file snippet can come from. */
  ghost predicate FromMatchingFile(topic: string, fs: FileSystem, s: Snippet)
  {
    exists d, f :: d in SearchDirs && d in fs && f in Flatten(fs[d]) &&
                   IsMatch(topic, f) && s == SnippetOfFile(d, f)
  }

  lemma {:induction false} MatchesSound(topic: string, dir: string, files: seq<FileEntry>, s: Snippet)
    requires s in Matches(topic, dir, files)
    ensures exists f :: f in files && IsMatch(topic, f) && s == SnippetOfFile(dir, f)
    decreases |files|
  {
    if !IsMatch(topic, files[0]) || s != SnippetOfFile(dir, files[0]) {
      MatchesSound(topic, dir, files[1..], s);
      var f :| f in files[1..] && IsMatch(topic, f) && s == SnippetOfFile(dir, f);
      assert f in files;
    }
  }

  lemma ContributionSound(topic: string, dir: string, fs: FileSystem, count: nat, s: Snippet)
    requires dir in SearchDirs
    requires s in Contribution(topic, dir, fs, count)
    ensures FromMatchingFile(topic, fs, s)
  {
    var w := fs[dir];
    if count >= Cap {
      MatchesAppend(topic, dir, w[0], Flatten(w[1..]));
      assert Flatten(w) == w[0] + Flatten(w[1..]);
    }
    MatchesSound(topic, dir, Flatten(w), s);
  }

  /** Every collected snippet is a hit's snippet or the snippet of a
      matching Markdown file of one of the searched directories. */
  lemma CollectedSound(topic: string, rag: RagOutcome, fs: FileSystem, s: Snippet)
    requires s in Collected(topic, rag, fs)
    ensures s in RagSnippets(HitsOf(rag)) || FromMatchingFile(topic, fs, s)
  {
    CollectedIsReference(topic, rag, fs);
    var r0 := RagSnippets(HitsOf(rag));
    var c1 := Contribution(topic, SearchDirs[0], fs, |r0|);
    var c2 := Contribution(topic, SearchDirs[1], fs, |r0 + c1|);
    var c3 := Contribution(topic, SearchDirs[2], fs, |r0 + c1 + c2|);
    assert Collected(topic, rag, fs) == r0 + c1 + c2 + c3;
    if s in c1 {
      ContributionSound(topic, SearchDirs[0], fs, |r0|, s);
    } else if s in c2 {
      ContributionSound(topic, SearchDirs[1], fs, |r0 + c1|, s);
    } else if s in c3 {
      ContributionSound(topic, SearchDirs[2], fs, |r0 + c1 + c2|, s);
    }
  }

  /** No collected snippet carries more than 1000 characters of content. */
  lemma ExcerptsBounded(topic: string, rag: RagOutcome, fs: FileSystem, s: Snippet)
    requires s in Collected(topic, rag, fs)
    ensures |s.excerpt| <= ExcerptLimit
  {
    CollectedSound(topic, rag, fs, s);
    if s !in RagSnippets(HitsOf(rag)) {
      var d, f :| d in SearchDirs && d in fs && f in Flatten(fs[d]) &&
                  IsMatch(topic, f) && s == SnippetOfFile(d, f);
    }
  }

  // ---------------------------------------------------------------------
  // Merge and prompt

  function RenderAll(ss: seq<Snippet>): (r: seq<string>)
    ensures |r| == |ss| && forall i :: 0 <= i < |ss| ==> r[i] == Render(ss[i])
  {
    seq(|ss|, i requires 0 <= i < |ss| => Render(ss[i]))
  }

  /** The first eight snippets, rendered and separated by blank lines. The
      context is empty exactly when there are no snippets, and it opens
      with the first one. */
  function CombinedContext(ss: seq<Snippet>): (r: string)
    ensures r == [] <==> ss == []
    ensures ss != [] ==> IsPrefix(Render(ss[0]), r)
    ensures |ss| == 1 ==> r == Render(ss[0])
  {
    var xs := RenderAll(Take(ss, ContextLimit));
    if ss == [] then Join(xs, ContextSeparator)
    else
      var first := Render(ss[0]);
      assert xs[0] == first;
      assert |xs| == 1 ==> Join(xs, ContextSeparator) == first;
      assert |xs| > 1 ==> Join(xs, ContextSeparator) == first + (ContextSeparator + Join(xs[1..], ContextSeparator));
      Join(xs, ContextSeparator)
  }

  /** Below eight snippets, one more snippet extends the context by a blank
      line and its text: snippets appear in order, separated by "\n\n". */
  lemma ContextExtends(ss: seq<Snippet>, s: Snippet)
    requires 1 <= |ss| < ContextLimit
    ensures CombinedContext(ss + [s]) == CombinedContext(ss) + ContextSeparator + Render(s)
  {
    assert Take(ss + [s], ContextLimit) == ss + [s];
    assert Take(ss, ContextLimit) == ss;
    assert RenderAll(ss + [s]) == RenderAll(ss) + [Render(s)];
    JoinAppend(RenderAll(ss), Render(s), ContextSeparator);
  }

  /** Snippets after the eighth never reach the context. */
  lemma ContextIgnoresLaterSnippets(ss: seq<Snippet>, more: seq<Snippet>)
    requires |ss| >= ContextLimit
    ensures CombinedContext(ss + more) == CombinedContext(ss)
  {
    assert Take(ss + more, ContextLimit) == Take(ss, ContextLimit);
  }

  /** Each of the first eight snippets appears in the context. */
  lemma ContextShowsEarlySnippets(ss: seq<Snippet>, i: nat)
    requires i < Min(|ss|, ContextLimit)
    ensures Contains(CombinedContext(ss), Render(ss[i]))
  {
    JoinContains(RenderAll(Take(ss, ContextLimit)), ContextSeparator, i);
  }

  datatype Template = AnalysisTemplate | DebateTemplate

  function TemplateFor(isDebate: bool): Template
  {
    if isDebate then DebateTemplate else AnalysisTemplate
  }

  /** The task type the reasoning component is told. */
  function TaskType(t: Template): string
  {
    match t
    case DebateTemplate => "debate"
    case AnalysisTemplate => "gemini"
  }

  /** The fixed text before the topic (an English rendering of the Korean template text). */
  function PromptHead(t: Template): string
  {
    match t
    case AnalysisTemplate => "\nYou are the chief bio researcher of SHawn Lab. \nTopic: '"
    case DebateTemplate => "\nYou are the Brain Council, the research board of SHawn Lab. \nTopic: '"
  }

  /** The fixed text between the topic and the context. */
  const PromptMiddle := "'\n\n[Research material]\n"

  /** The fixed task text after the context. */
  function PromptTail(t: Template): string
  {
    match t
    case AnalysisTemplate =>
      "\n\n[Task]\n1. Find the cross-links between the studies\n"
      + "2. Propose a unified hypothesis\n3. Propose a detailed experimental design\n"
    case DebateTemplate =>
      "\n\n[Task]\nDebate the conflicts and gaps in the material. Do not merge the result: "
      + "state opposing hypothesis A and opposing hypothesis B and write a recommendation.\n"
  }

  function RenderPrompt(t: Template, topic: string, context: string): string
  {
    PromptHead(t) + topic + PromptMiddle + context + PromptTail(t)
  }

  /** Both templates carry the topic and the whole context. */
  lemma PromptEmbeds(t: Template, topic: string, context: string)
    ensures Contains(RenderPrompt(t, topic, context), topic)
    ensures Contains(RenderPrompt(t, topic, context), context)
  {
    var p := RenderPrompt(t, topic, context);
    ContainsInfix(PromptHead(t), topic, PromptMiddle + context + PromptTail(t));
    assert p == PromptHead(t) + topic + (PromptMiddle + context + PromptTail(t));
    ContainsInfix(PromptHead(t) + topic + PromptMiddle, context, PromptTail(t));
  }

  /** The two templates never produce the same prompt. */
  lemma TemplatesDiffer(topic: string, context: string)
    ensures RenderPrompt(AnalysisTemplate, topic, context) != RenderPrompt(DebateTemplate, topic, context)
  {
  }

  /** The reasoning-component call, if one is made. */
  datatype BrainCall = NoCall | Call(prompt: string, taskType: string)

  const NoResultsMessage := "No related documents found. Try a broader topic."

  /** The whole of `meta_analyze`: collect, stop with the fixed message when
      nothing was found, otherwise merge, fill the template chosen by the
      flag and return what the reasoning component (`think`) answers. */
  method MetaAnalyze(topic: string, isDebate: bool, rag: RagOutcome, fs: FileSystem,
                     think: (string, string) -> string)
    returns (answer: string, call: BrainCall)
    ensures call.NoCall? <==> Collected(topic, rag, fs) == []
    ensures call.NoCall? ==> answer == NoResultsMessage
    ensures call.Call? ==>
              call.taskType == (if isDebate then "debate" else "gemini") &&
              call.prompt == RenderPrompt(TemplateFor(isDebate), topic,
                                          CombinedContext(Collected(topic, rag, fs))) &&
              answer == think(call.prompt, call.taskType)
  {
    var matched := CollectSnippets(topic, rag, fs);
    if matched == [] {
      return NoResultsMessage, NoCall;
    }
    var context := CombinedContext(matched);
    var template := TemplateFor(isDebate);
    call := Call(RenderPrompt(template, topic, context), TaskType(template));
    answer := think(call.prompt, call.taskType);
  }
}
