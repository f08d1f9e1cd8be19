/**
 * The polling cycle of the automation script: for every watched channel,
 * the latest videos that are not yet visited and whose title names a known
 * company are transcribed, summarised, formatted and posted to Slack; a
 * video is marked visited only when all of that went through, and the
 * visited set is saved once per pass over the channels.
 */
module PollLoop {
  import opened Base
  import opened SetStore
  import Text
  import Json
  import CD = CompanyDetection
  import T = Transcription
  import S = Summarization
  import PF = PromptFormat
  import Slack = SlackSummary

  const CHANNEL_IDS: seq<string> := [
    "UC3uJIdRFTGgLWrUziaHbzrg",
    "UCkXopQ3ubd-rnXnStZqCl2w",
    "UCQIycDaLsBpMKjOCeaKUYVg",
    "UCI_mwTKUhicNzFrhm33MzBQ",
    "UCmRbHAgG2k2vDUvb3xsEunQ"
  ]

  /** How many feed entries `fetch_latest_videos` keeps by default. */
  const MAX_VIDEOS: nat := 3

  /**
   * Everything a cycle talks to: the RSS feed (entries as link and title,
   * by channel id), the company reference data and the two foreign
   * algorithms of company detection, the media and language-model
   * services, the prompt template `generate_summary` formats, `str()` for
   * JSON values, the Slack webhook, and whether posting a given text
   * returns (true) or raises (false). The template the script ships is the
   * analyst prompt as written (`PromptFormat.RawTemplate`); see
   * `ShippedTemplateNeverCompletes` for what that means for the loop.
   */
  datatype Services = Services(
    feed: string -> seq<(string, string)>,
    data: CD.CompanyData,
    nounChunks: string -> seq<string>,
    extractOne: (string, seq<string>) -> Option<CD.Match>,
    listOrder: set<string> -> seq<string>,
    media: T.MediaServices,
    llm: S.LlmServices,
    template: string,
    show: Json.Json -> string,
    webhook: Option<string>,
    post: string -> bool)

  /** What the services are assumed to satisfy (see company detection). */
  ghost predicate Valid(svc: Services) {
    CD.Consistent(svc.data) && CD.ScorerContract(svc.extractOne, svc.data.namesLower) && CD.ListsSets(svc.listOrder)
  }

  /**
   * A Slack webhook is configured (a non-empty URL). `send_to_slack` of the
   * automation script posts nothing without one; otherwise it posts, and a
   * failed post is not caught there.
   */
  predicate Hooked(svc: Services) {
    svc.webhook.Some? && svc.webhook.value != ""
  }

  /** `feed.entries[:max_videos]` */
  function Latest(entries: seq<(string, string)>, maxVideos: nat): (videos: seq<(string, string)>)
    ensures |videos| == if |entries| < maxVideos then |entries| else maxVideos
    ensures videos == entries[..|videos|]
  {
    if |entries| < maxVideos then entries else entries[..maxVideos]
  }

  /** `fetch_latest_videos(channel_id)`: the first three entries of the channel's feed. */
  function FetchLatestVideos(channelId: string, feed: string -> seq<(string, string)>): seq<(string, string)> {
    Latest(feed(Text.Strip(channelId)), MAX_VIDEOS)
  }

  /** One video of one channel, in the order the cycle visits them. */
  datatype Item = Item(channelId: string, url: string, title: string)

  function ChannelItems(channelId: string, videos: seq<(string, string)>): (items: seq<Item>)
    ensures |items| == |videos|
    ensures forall k :: 0 <= k < |videos| ==> items[k] == Item(channelId, videos[k].0, videos[k].1)
  {
    seq(|videos|, k requires 0 <= k < |videos| => Item(channelId, videos[k].0, videos[k].1))
  }

  /** All videos of a list of channels, channel by channel. */
  function Items(channels: seq<string>, feed: string -> seq<(string, string)>): seq<Item> {
    if channels == [] then []
    else
      var n := |channels| - 1;
      Items(channels[..n], feed) + ChannelItems(channels[n], FetchLatestVideos(channels[n], feed))
  }

  /**
   * What one video's `try` block did: the text it posted, if any, whether
   * it ran to the end without raising, and what became of the audio file.
   */
  datatype Attempt = Attempt(posted: Option<string>, completed: bool, audio: T.AudioEffect)

  /**
   * The `try` block for one video: transcript, summary, Slack text, post.
   * It completes exactly when none of them raises; with a webhook the
   * Slack text is what is posted, without one nothing is posted. The audio
   * effect is the transcript step's.
   */
  function Pipeline(item: Item, companies: seq<string>, svc: Services): (a: Attempt)
    ensures a.audio == T.Acquire(item.url, svc.media).audio
    ensures var acq := T.Acquire(item.url, svc.media).result;
            a.completed <==>
              acq.Ok? && var sum := S.Summary(acq.value, svc.template, None, svc.llm);
              sum.Ok? && var text := Slack.SlackText(item.url, sum.value, item.channelId, item.title, companies, svc.show);
              text.Ok? && (!Hooked(svc) || svc.post(text.value))
    ensures var acq := T.Acquire(item.url, svc.media).result;
            a.posted.Some? <==>
              Hooked(svc) && acq.Ok? && var sum := S.Summary(acq.value, svc.template, None, svc.llm);
              sum.Ok? && Slack.SlackText(item.url, sum.value, item.channelId, item.title, companies, svc.show).Ok?
    ensures a.posted.Some? ==>
              var acq := T.Acquire(item.url, svc.media).result;
              var sum := S.Summary(acq.value, svc.template, None, svc.llm);
              a.posted.value == Slack.SlackText(item.url, sum.value, item.channelId, item.title, companies, svc.show).value
  {
    var acquired := T.Acquire(item.url, svc.media);
    if acquired.result.Err? then Attempt(None, false, acquired.audio)
    else
      var summary := S.Summary(acquired.result.value, svc.template, None, svc.llm);
      if summary.Err? then Attempt(None, false, acquired.audio)
      else
        var text := Slack.SlackText(item.url, summary.value, item.channelId, item.title, companies, svc.show);
        if text.Err? then Attempt(None, false, acquired.audio)
        else if !Hooked(svc) then Attempt(None, true, acquired.audio)
        else Attempt(Some(text.value), svc.post(text.value), acquired.audio)
  }

  /**
   * With the analyst prompt as the script ships it (see
   * `Summarization.AnalystPromptAlwaysFails`), the summary step raises for
   * every video, so the `try` block never completes and nothing is posted.
   */
  lemma ShippedTemplateNeverCompletes(item: Item, companies: seq<string>, svc: Services,
                                      p: PF.Prompt, mid: string, rest: string)
    requires svc.template == PF.RawTemplate(p)
    requires PF.NoBraces(p.before) && PF.NoBraces(mid) && p.after == mid + "{\n" + rest
    ensures !Pipeline(item, companies, svc).completed && Pipeline(item, companies, svc).posted.None?
  {
    var acq := T.Acquire(item.url, svc.media).result;
    if acq.Ok? {
      S.AnalystPromptAlwaysFails(acq.value, p, mid, rest, None, svc.llm);
    }
  }

  /**
   * Corrected: with the braces of the prompt doubled and an API key set, a
   * video whose transcript was obtained is sent to the chat endpoint as the
   * prompt with the transcript in its slot.
   */
  lemma CorrectedTemplateSendsPrompt(item: Item, svc: Services, p: PF.Prompt)
    requires svc.template == PF.EscapedTemplate(p)
    requires S.Present(S.EffectiveKey(None, svc.llm.envApiKey))
    ensures T.Acquire(item.url, svc.media).result.Ok? ==>
              var transcript := T.Acquire(item.url, svc.media).result.value;
              S.Summarise(transcript, svc.template, None, S.DEFAULT_MAX_RETRIES, svc.llm)
              == S.Attempts(p.before + transcript + p.after, S.DEFAULT_MAX_RETRIES, svc.llm.chat)
  {
    if T.Acquire(item.url, svc.media).result.Ok? {
      S.EscapedPromptIsSent(T.Acquire(item.url, svc.media).result.value, p, None, svc.llm);
    }
  }

  /** The companies the title names, as `extract_company_names` lists them. */
  ghost function CompaniesOf(item: Item, svc: Services): seq<string> {
    if Valid(svc) then CD.CompanyList(item.title, svc.data, svc.nounChunks, svc.extractOne, svc.listOrder) else []
  }

  /**
   * What a cycle needs to know about one video: the companies found in its
   * title, and how its `try` block ends for a given list of companies.
   */
  datatype World = World(companiesOf: Item -> seq<string>, attemptOf: (Item, seq<string>) -> Attempt)

  ghost function WorldOf(svc: Services): World {
    World(item => CompaniesOf(item, svc), (item, companies) => Pipeline(item, companies, svc))
  }

  /** The video names a company and its whole `try` block completes. */
  predicate Succeeds(item: Item, w: World) {
    w.companiesOf(item) != [] && w.attemptOf(item, w.companiesOf(item)).completed
  }

  /** The state a cycle threads through its videos. */
  datatype CycleState = CycleState(visited: set<string>, files: set<string>, posts: seq<string>)

  /**
   * One video: skipped when visited, skipped (and not marked) when no
   * company is found, otherwise processed and marked visited only when the
   * `try` block completes.
   */
  function Step(st: CycleState, item: Item, w: World): (r: CycleState)
    ensures item.url in st.visited ==> r == st
    ensures w.companiesOf(item) == [] ==> r == st
    ensures item.url !in st.visited ==> r.visited == if Succeeds(item, w) then st.visited + {item.url} else st.visited
    ensures |st.posts| <= |r.posts| <= |st.posts| + 1 && r.posts[..|st.posts|] == st.posts
  {
    if item.url in st.visited then st
    else
      var companies := w.companiesOf(item);
      if companies == [] then st
      else
        var a := w.attemptOf(item, companies);
        CycleState(
          if a.completed then st.visited + {item.url} else st.visited,
          T.FilesAfter(st.files, a.audio),
          st.posts + (if a.posted.Some? then [a.posted.value] else []))
  }

  /** The videos in order, from a starting state. */
  function Run(st: CycleState, items: seq<Item>, w: World): CycleState {
    if items == [] then st
    else
      var n := |items| - 1;
      Step(Run(st, items[..n], w), items[n], w)
  }

  /** The URLs of the videos that would succeed. */
  function SucceededUrls(items: seq<Item>, w: World): set<string> {
    set i | 0 <= i < |items| && Succeeds(items[i], w) :: items[i].url
  }

  /**
   * After a cycle, the visited set is the old one plus the URL of every
   * video whose processing succeeds: it only grows, a URL is added only
   * when some video with that URL got all the way through, and every such
   * URL is added.
   */
  lemma {:induction false} RunVisited(st: CycleState, items: seq<Item>, w: World)
    ensures Run(st, items, w).visited == st.visited + SucceededUrls(items, w)
  {
    if items != [] {
      var n := |items| - 1;
      RunVisited(st, items[..n], w);
      var before := SucceededUrls(items[..n], w);
      var after := SucceededUrls(items, w);
      forall u | u in after ensures u in before || (Succeeds(items[n], w) && u == items[n].url) {
        var i := SucceededWitness(items, w, u);
        if i < n {
          var prefix := items[..n];
          assert prefix[i] == items[i];
          SucceededMember(prefix, w, i);
        }
      }
      forall u | u in before ensures u in after {
        var i := SucceededWitness(items[..n], w, u);
        assert items[i] == items[..n][i];
        SucceededMember(items, w, i);
      }
      if Succeeds(items[n], w) {
        SucceededMember(items, w, n);
      }
    }
  }

  lemma SucceededMember(items: seq<Item>, w: World, i: nat)
    requires i < |items| && Succeeds(items[i], w)
    ensures items[i].url in SucceededUrls(items, w)
  {
  }

  lemma SucceededWitness(items: seq<Item>, w: World, u: string) returns (i: nat)
    requires u in SucceededUrls(items, w)
    ensures i < |items| && Succeeds(items[i], w) && items[i].url == u
  {
    var k :| 0 <= k < |items| && Succeeds(items[k], w) && items[k].url == u;
    i := k;
  }

  /** Posts are only ever appended. */
  lemma {:induction false} RunKeepsPosts(st: CycleState, items: seq<Item>, w: World)
    ensures |st.posts| <= |Run(st, items, w).posts| <= |st.posts| + |items|
    ensures Run(st, items, w).posts[..|st.posts|] == st.posts
  {
    if items != [] {
      var n := |items| - 1;
      RunKeepsPosts(st, items[..n], w);
      var mid := Run(st, items[..n], w);
      assert mid.posts[..|st.posts|] == st.posts;
      var last := Step(mid, items[n], w);
      assert last.posts[..|mid.posts|] == mid.posts;
      assert last.posts[..|st.posts|] == mid.posts[..|st.posts|];
    }
  }

  lemma RunAppend(st: CycleState, items: seq<Item>, item: Item, w: World)
    ensures Run(st, items + [item], w) == Step(Run(st, items, w), item, w)
  {
    assert (items + [item])[..|items|] == items;
  }

  /**
   * With the analyst prompt as shipped, a cycle marks no video visited and
   * posts nothing, whatever the feeds, titles and services answer.
   */
  lemma {:induction false} ShippedCycleChangesNothing(st: CycleState, items: seq<Item>, svc: Services,
                                                      p: PF.Prompt, mid: string, rest: string)
    requires svc.template == PF.RawTemplate(p)
    requires PF.NoBraces(p.before) && PF.NoBraces(mid) && p.after == mid + "{\n" + rest
    ensures Run(st, items, WorldOf(svc)).visited == st.visited
    ensures Run(st, items, WorldOf(svc)).posts == st.posts
  {
    if items != [] {
      var n := |items| - 1;
      ShippedCycleChangesNothing(st, items[..n], svc, p, mid, rest);
      ShippedTemplateNeverCompletes(items[n], CompaniesOf(items[n], svc), svc, p, mid, rest);
    }
  }

  /**
   * The `try` block of the cycle for one video: any exception it raises
   * is caught, so the outcome is whether it completed.
   */
  method ProcessVideo(item: Item, companies: seq<string>, svc: Services, disk: T.Disk)
    returns (completed: bool, posted: seq<string>)
    modifies disk
    ensures completed == Pipeline(item, companies, svc).completed
    ensures posted == if Pipeline(item, companies, svc).posted.Some? then [Pipeline(item, companies, svc).posted.value] else []
    ensures disk.files == T.FilesAfter(old(disk.files), Pipeline(item, companies, svc).audio)
  {
    posted := [];
    var transcript, _ := T.GetTranscript(item.url, svc.media, disk);
    if transcript.Err? {
      return false, [];
    }
    var summary := S.GenerateSummary(transcript.value, svc.template, None, svc.llm);
    if summary.Err? {
      return false, [];
    }
    var text := Slack.FormatSummaryForSlack(item.url, summary.value, item.channelId, item.title, companies, svc.show);
    if text.Err? {
      return false, [];
    }
    if !Hooked(svc) {
      return true, [];
    }
    posted := [text.value];
    completed := svc.post(text.value);
  }

  /**
   * The body of the inner loop for one video: skip it when visited or
   * when its title names no company, otherwise run the `try` block and
   * mark it visited when that completes.
   */
  method PollVideo(visited: set<string>, posts: seq<string>, item: Item, svc: Services, disk: T.Disk)
    returns (newVisited: set<string>, newPosts: seq<string>)
    requires Valid(svc)
    modifies disk
    ensures CycleState(newVisited, disk.files, newPosts)
            == Step(CycleState(visited, old(disk.files), posts), item, WorldOf(svc))
  {
    newVisited, newPosts := visited, posts;
    if item.url in visited {
      return;
    }
    var companies, _ := CD.ExtractCompanyNames(item.title, svc.data, svc.nounChunks, svc.extractOne, svc.listOrder);
    if companies == [] {
      return;
    }
    var completed, posted := ProcessVideo(item, companies, svc, disk);
    if completed {
      newVisited := newVisited + {item.url};
    }
    newPosts := newPosts + posted;
  }

  /** The inner loop: the latest videos of one channel, in feed order. */
  method PollChannel(visited: set<string>, posts: seq<string>, channelId: string, svc: Services, disk: T.Disk)
    returns (newVisited: set<string>, newPosts: seq<string>)
    requires Valid(svc)
    modifies disk
    ensures CycleState(newVisited, disk.files, newPosts)
            == Run(CycleState(visited, old(disk.files), posts),
                   ChannelItems(channelId, FetchLatestVideos(channelId, svc.feed)), WorldOf(svc))
  {
    ghost var st0 := CycleState(visited, disk.files, posts);
    ghost var w := WorldOf(svc);
    var videos := FetchLatestVideos(channelId, svc.feed);
    newVisited, newPosts := visited, posts;
    for v := 0 to |videos|
      invariant CycleState(newVisited, disk.files, newPosts) == Run(st0, ChannelItems(channelId, videos[..v]), w)
    {
      var (url, title) := videos[v];
      var item := Item(channelId, url, title);
      ChannelItemsStep(channelId, videos, v);
      RunAppend(st0, ChannelItems(channelId, videos[..v]), item, w);
      newVisited, newPosts := PollVideo(newVisited, newPosts, item, svc, disk);
    }
    assert videos[..|videos|] == videos;
  }

  /** Running two lists of videos one after the other. */
  lemma {:induction false} RunConcat(st: CycleState, a: seq<Item>, b: seq<Item>, w: World)
    ensures Run(st, a + b, w) == Run(Run(st, a, w), b, w)
  {
    if b != [] {
      var n := |b| - 1;
      assert (a + b)[..|a| + n] == a + b[..n];
      RunConcat(st, a, b[..n], w);
    } else {
      assert a + b == a;
    }
  }

  /**
   * One pass of `main` over the channels (`CHANNEL_IDS`): the visited set, the files on
   * disk and the posts are those of running every fetched video in order,
   * and the visited set is then saved, once.
   */
  method PollCycle(channels: seq<string>, visited: set<string>, svc: Services, store: JsonSetFile, disk: T.Disk)
    returns (newVisited: set<string>, posts: seq<string>)
    requires Valid(svc)
    modifies store, disk
    ensures var r := Run(CycleState(visited, old(disk.files), []), Items(channels, svc.feed), WorldOf(svc));
              newVisited == r.visited && disk.files == r.files && posts == r.posts
    ensures store.LoadVisited() == Ok(newVisited) && store.writes == old(store.writes) + 1
  {
    newVisited, posts := PollChannels(channels, visited, svc, disk);
    store.Save(newVisited);
  }

  /** The outer loop over the channels. */
  method PollChannels(channels: seq<string>, visited: set<string>, svc: Services, disk: T.Disk)
    returns (newVisited: set<string>, posts: seq<string>)
    requires Valid(svc)
    modifies disk
    ensures CycleState(newVisited, disk.files, posts)
            == Run(CycleState(visited, old(disk.files), []), Items(channels, svc.feed), WorldOf(svc))
  {
    ghost var st0 := CycleState(visited, disk.files, []);
    ghost var w := WorldOf(svc);
    newVisited := visited;
    posts := [];
    for c := 0 to |channels|
      invariant CycleState(newVisited, disk.files, posts) == Run(st0, Items(channels[..c], svc.feed), w)
    {
      var channelId := channels[c];
      ghost var done := Items(channels[..c], svc.feed);
      ghost var more := ChannelItems(channelId, FetchLatestVideos(channelId, svc.feed));
      ItemsStep(channels, c, svc.feed);
      RunConcat(st0, done, more, w);
      newVisited, posts := PollChannel(newVisited, posts, channelId, svc, disk);
    }
    assert channels[..|channels|] == channels;
  }

  lemma ItemsStep(channels: seq<string>, c: nat, feed: string -> seq<(string, string)>)
    requires c < |channels|
    ensures Items(channels[..c + 1], feed)
            == Items(channels[..c], feed) + ChannelItems(channels[c], FetchLatestVideos(channels[c], feed))
  {
    assert channels[..c + 1][..c] == channels[..c];
  }

  lemma ChannelItemsStep(channelId: string, videos: seq<(string, string)>, v: nat)
    requires v < |videos|
    ensures ChannelItems(channelId, videos[..v + 1])
            == ChannelItems(channelId, videos[..v]) + [Item(channelId, videos[v].0, videos[v].1)]
  {
    assert videos[..v + 1][v] == videos[v];
  }

  /**
   * `main`, run for a number of passes: the visited set is loaded once (an
   * unreadable file raises before anything happens), grows from pass to
   * pass, and is saved once per pass. `svcAt(k)` is what the world answers
   * during pass `k`.
   */
  method Poll(store: JsonSetFile, disk: T.Disk, passes: nat, svcAt: nat -> Services)
    returns (r: Result<set<string>>)
    requires forall k :: Valid(svcAt(k))
    modifies store, disk
    ensures r.Err? <==> old(store.state).Unreadable?
    ensures r.Err? ==> store.state == old(store.state) && store.writes == old(store.writes) && disk.files == old(disk.files)
    ensures r.Ok? ==> old(store.LoadVisited()).Ok? && old(store.LoadVisited()).value <= r.value
    ensures r.Ok? ==> store.writes == old(store.writes) + passes
    ensures r.Ok? && passes > 0 ==> store.LoadVisited() == Ok(r.value)
  {
    var loaded := store.LoadVisited();
    if loaded.Err? {
      return Err(loaded.error);
    }
    var visited := loaded.value;
    for k := 0 to passes
      invariant loaded.value <= visited
      invariant store.writes == old(store.writes) + k
      invariant k > 0 ==> store.LoadVisited() == Ok(visited)
    {
      var st := CycleState(visited, disk.files, []);
      RunVisited(st, Items(CHANNEL_IDS, svcAt(k).feed), WorldOf(svcAt(k)));
      var posts;
      visited, posts := PollCycle(CHANNEL_IDS, visited, svcAt(k), store, disk);
    }
    r := Ok(visited);
  }
}
