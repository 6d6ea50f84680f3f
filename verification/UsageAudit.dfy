/**
 Usage statistics and the audit listing of services/usage_audit.py. A message's
 attachments are given parsed, and the table in the order of its query.
 */
module UsageAudit {
  import opened Wrappers
  import opened Strings
  import opened Sorting

  datatype Attachments = Attachments(
    channel: Option<Text>, groupFolder: Option<Text>, runId: Option<Text>, externalId: Option<Text>)

  datatype Message = Message(id: Text, chatJid: Text, sender: Text, fromMe: bool, at: int, attachments: Attachments)

  const SECONDS_PER_DAY := 86400

  function Clamp(low: int, high: int, x: int): int {
    if (if high < x then high else x) < low then low else if high < x then high else x
  }

  function NormalizeDays(days: int): (r: int)
    ensures 1 <= r <= 365 && (1 <= days <= 365 ==> r == days)
    ensures (days < 1 ==> r == 1) && (days > 365 ==> r == 365)
  {
    Clamp(1, 365, days)
  }

  function NormalizeLimit(limit: int): (r: nat)
    ensures 1 <= r <= 200 && (1 <= limit <= 200 ==> r == limit)
    ensures (limit < 1 ==> r == 1) && (limit > 200 ==> r == 200)
  {
    Clamp(1, 200, limit)
  }

  // ---- metadata -------------------------------------------------------

  const WEB: Text := Lit("web")
  const FEISHU: Text := Lit("feishu")
  const TELEGRAM: Text := Lit("telegram")
  const COLON: Text := Lit(":")

  function ChannelOf(m: Message): Text {
    var named := NonBlank(m.attachments.channel);
    if named.Some? && named.value in {WEB, FEISHU, TELEGRAM} then named.value
    else if FEISHU + COLON <= m.chatJid then FEISHU
    else if TELEGRAM + COLON <= m.chatJid then TELEGRAM
    else WEB
  }

  function GroupOf(m: Message): Text {
    var named := NonBlank(m.attachments.groupFolder);
    if named.Some? then named.value
    else if WEB + COLON <= m.chatJid && m.chatJid != WEB + COLON then m.chatJid[4..]
    else m.chatJid
  }

  function RunOf(m: Message): Option<Text> {
    NonBlank(m.attachments.runId)
  }

  /** The UTC date, as a day number. */
  function DayOf(m: Message): int {
    m.at / SECONDS_PER_DAY
  }

  /** A named folder wins; else a web chat is its name without the prefix, and any other chat, or none, is itself. */
  lemma GroupIs(m: Message, name: Text)
    ensures NonBlank(m.attachments.groupFolder).Some? ==> GroupOf(m) == NonBlank(m.attachments.groupFolder).value
    ensures NonBlank(m.attachments.groupFolder).None? && m.chatJid == Lit("web:") + name ==>
              GroupOf(m) == if name == [] then m.chatJid else name
    ensures NonBlank(m.attachments.groupFolder).None? && !(Lit("web:") <= m.chatJid) ==> GroupOf(m) == m.chatJid
  {
    assert Lit("web:") == WEB + COLON;
  }

  /** A known channel that is named wins; else the chat's prefix decides, and without one it is the web. */
  lemma ChannelIs(m: Message)
    ensures var named := NonBlank(m.attachments.channel);
            ChannelOf(m) ==
              if named == Some(Lit("web")) || named == Some(Lit("feishu")) || named == Some(Lit("telegram"))
              then named.value
              else if Lit("feishu:") <= m.chatJid then Lit("feishu")
              else if Lit("telegram:") <= m.chatJid then Lit("telegram") else Lit("web")
  {
    assert Lit("feishu:") == FEISHU + COLON && Lit("telegram:") == TELEGRAM + COLON;
  }

  /** A message falls on the day whose seconds it lies in. */
  lemma DayIs(m: Message)
    ensures 86400 * DayOf(m) <= m.at < 86400 * (DayOf(m) + 1)
  {
  }

  // ---- what the statistics count --------------------------------------

  /** The messages that fall under a key, a day or a channel. */
  function Under<K(==)>(keyOf: Message -> K, messages: seq<Message>, key: K): seq<Message> {
    if messages == [] then []
    else
      var init, last := Under(keyOf, messages[..|messages| - 1], key), messages[|messages| - 1];
      if keyOf(last) == key then init + [last] else init
  }

  function Users(messages: seq<Message>): nat {
    if messages == [] then 0
    else Users(messages[..|messages| - 1]) + (if messages[|messages| - 1].fromMe then 0 else 1)
  }

  function Assistants(messages: seq<Message>): nat {
    if messages == [] then 0
    else Assistants(messages[..|messages| - 1]) + (if messages[|messages| - 1].fromMe then 1 else 0)
  }

  function Runs(messages: seq<Message>): set<Text> {
    if messages == [] then {}
    else
      var run := RunOf(messages[|messages| - 1]);
      Runs(messages[..|messages| - 1]) + (if run.Some? then {run.value} else {})
  }

  lemma CountOne(messages: seq<Message>, m: Message)
    ensures var more := messages + [m];
            && Users(more) == Users(messages) + (if m.fromMe then 0 else 1)
            && Assistants(more) == Assistants(messages) + (if m.fromMe then 1 else 0)
            && Runs(more) == Runs(messages) + (if RunOf(m).Some? then {RunOf(m).value} else {})
  {
  }

  /** The positions of the messages from the user's side, or from the assistant's. */
  ghost function From(messages: seq<Message>, me: bool): set<nat> {
    set i: nat | i < |messages| && messages[i].fromMe == me
  }

  lemma FromOne(messages: seq<Message>, me: bool)
    requires messages != []
    ensures From(messages, me) ==
              From(messages[..|messages| - 1], me)
              + (if messages[|messages| - 1].fromMe == me then {|messages| - 1} else {})
    ensures |messages| - 1 !in From(messages[..|messages| - 1], me)
  {
  }

  /** Some message names the run. */
  ghost predicate NamesRun(messages: seq<Message>, run: Text) {
    exists i :: 0 <= i < |messages| && RunAt(messages[i], run)
  }

  predicate RunAt(m: Message, run: Text) {
    NonBlank(m.attachments.runId) == Some(run)
  }

  lemma NamesRunOne(messages: seq<Message>, run: Text)
    requires messages != []
    ensures NamesRun(messages, run) <==>
              NamesRun(messages[..|messages| - 1], run) || RunAt(messages[|messages| - 1], run)
  {
    var init := messages[..|messages| - 1];
    if NamesRun(init, run) {
      var i :| 0 <= i < |init| && RunAt(init[i], run);
      assert RunAt(messages[i], run);
    }
    if i :| 0 <= i < |messages| && RunAt(messages[i], run) {
      assert i < |init| ==> RunAt(init[i], run);
    }
  }

  lemma {:induction false} SidesAre(messages: seq<Message>)
    ensures Users(messages) == |From(messages, false)| && Assistants(messages) == |From(messages, true)|
  {
    if messages != [] {
      SidesAre(messages[..|messages| - 1]);
      FromOne(messages, false);
      FromOne(messages, true);
    }
  }

  lemma {:induction false} RunsAre(messages: seq<Message>, run: Text)
    ensures run in Runs(messages) <==> NamesRun(messages, run)
  {
    if messages != [] {
      RunsAre(messages[..|messages| - 1], run);
      NamesRunOne(messages, run);
    }
  }

  /** What the three counts are counts of. */
  lemma CountsAre(messages: seq<Message>)
    ensures Users(messages) == |From(messages, false)| && Assistants(messages) == |From(messages, true)|
    ensures forall run :: run in Runs(messages) <==> NamesRun(messages, run)
  {
    SidesAre(messages);
    forall run ensures run in Runs(messages) <==> NamesRun(messages, run) {
      RunsAre(messages, run);
    }
  }

  lemma UnderOne<K>(keyOf: Message -> K, messages: seq<Message>, m: Message, key: K)
    ensures Under(keyOf, messages + [m], key) == Under(keyOf, messages, key) + (if keyOf(m) == key then [m] else [])
  {
  }

  // ---- aggregation ----------------------------------------------------

  /** A `defaultdict` read without adding the key. */
  function Get<K, V>(m: map<K, V>, k: K, default: V): V {
    if k in m then m[k] else default
  }

  /** The dictionaries kept per day or per channel. */
  datatype Buckets<!K> = Buckets(
    messages: map<K, nat>, users: map<K, nat>, assistants: map<K, nat>, runs: map<K, set<Text>>)

  function AddTo<K>(b: Buckets<K>, key: K, m: Message): Buckets<K> {
    Buckets(b.messages[key := Get(b.messages, key, 0) + 1],
            if m.fromMe then b.users else b.users[key := Get(b.users, key, 0) + 1],
            if m.fromMe then b.assistants[key := Get(b.assistants, key, 0) + 1] else b.assistants,
            if RunOf(m).Some? then b.runs[key := Get(b.runs, key, {}) + {RunOf(m).value}] else b.runs)
  }

  /** The entry under a key describes these messages; the key exists if there are any. */
  ghost predicate EntryIs<K>(b: Buckets<K>, key: K, under: seq<Message>) {
    && Get(b.messages, key, 0) == |under| && (key in b.messages <==> under != [])
    && Get(b.users, key, 0) == Users(under) && Get(b.assistants, key, 0) == Assistants(under)
    && Get(b.runs, key, {}) == Runs(under)
  }

  lemma AddToEntry<K>(b: Buckets<K>, key: K, m: Message, other: K, under: seq<Message>)
    requires EntryIs(b, other, under)
    ensures EntryIs(AddTo(b, key, m), other, under + (if key == other then [m] else []))
  {
    if key == other {
      CountOne(under, m);
      assert under + [m] != [];
    } else {
      assert under + [] == under;
    }
  }

  ghost predicate BucketsOk<K(!new)>(b: Buckets<K>, keyOf: Message -> K, messages: seq<Message>) {
    forall key {:trigger Under(keyOf, messages, key)} :: EntryIs(b, key, Under(keyOf, messages, key))
  }

  lemma AddMessage<K(!new)>(b: Buckets<K>, keyOf: Message -> K, messages: seq<Message>, m: Message)
    requires BucketsOk(b, keyOf, messages)
    ensures BucketsOk(AddTo(b, keyOf(m), m), keyOf, messages + [m])
  {
    forall key ensures EntryIs(AddTo(b, keyOf(m), m), key, Under(keyOf, messages + [m], key)) {
      UnderOne(keyOf, messages, m, key);
      AddToEntry(b, keyOf(m), m, key, Under(keyOf, messages, key));
    }
  }

  datatype DailyRow = DailyRow(day: int, messages: nat, runs: nat, users: nat, assistants: nat)
  datatype ChannelRow = ChannelRow(channel: Text, messages: nat, runs: nat)
  datatype Summary = Summary(messages: nat, runs: nat, users: nat, assistants: nat, activeDays: nat)
  datatype Stats = Stats(summary: Summary, daily: seq<DailyRow>, channels: seq<ChannelRow>)

  /** The counting loop of `get_usage_stats`. */
  method Aggregate(messages: seq<Message>)
      returns (days: Buckets<int>, channels: Buckets<Text>, users: nat, assistants: nat, runs: set<Text>)
    ensures BucketsOk(days, DayOf, messages) && BucketsOk(channels, ChannelOf, messages)
    ensures users == Users(messages) && assistants == Assistants(messages) && runs == Runs(messages)
  {
    days, channels := Buckets(map[], map[], map[], map[]), Buckets(map[], map[], map[], map[]);
    users, assistants, runs := 0, 0, {};
    for i := 0 to |messages|
      invariant BucketsOk(days, DayOf, messages[..i]) && BucketsOk(channels, ChannelOf, messages[..i])
      invariant users == Users(messages[..i]) && assistants == Assistants(messages[..i]) && runs == Runs(messages[..i])
    {
      var m := messages[i];
      assert messages[..i + 1] == messages[..i] + [m];
      CountOne(messages[..i], m);
      AddMessage(days, DayOf, messages[..i], m);
      AddMessage(channels, ChannelOf, messages[..i], m);
      days, channels := AddTo(days, DayOf(m), m), AddTo(channels, ChannelOf(m), m);
      if m.fromMe {
        assistants := assistants + 1;
      } else {
        users := users + 1;
      }
      if RunOf(m).Some? {
        runs := runs + {RunOf(m).value};
      }
    }
    assert messages[..|messages|] == messages;
  }

  // ---- the rows -------------------------------------------------------

  ghost predicate Distinct<K(!new)>(keys: seq<K>) {
    forall i, j :: 0 <= i < j < |keys| ==> keys[i] != keys[j]
  }

  method ListKeys<K(==, !new)>(keys: set<K>) returns (listed: seq<K>)
    ensures Distinct(listed) && forall k :: k in listed <==> k in keys
  {
    listed := [];
    var todo := keys;
    while todo != {}
      invariant todo <= keys && Distinct(listed)
      invariant forall k :: k in listed <==> k in keys && k !in todo
      decreases todo
    {
      var k :| k in todo;
      listed, todo := listed + [k], todo - {k};
    }
  }

  function DailyRowOf(messages: seq<Message>, day: int): DailyRow {
    var under := Under(DayOf, messages, day);
    DailyRow(day, |under|, |Runs(under)|, Users(under), Assistants(under))
  }

  function ChannelRowOf(messages: seq<Message>, channel: Text): ChannelRow {
    var under := Under(ChannelOf, messages, channel);
    ChannelRow(channel, |under|, |Runs(under)|)
  }

  predicate DayBefore(a: DailyRow, b: DailyRow) {
    a.day < b.day
  }

  /** `(-count, channel)`. */
  predicate Busier(a: ChannelRow, b: ChannelRow) {
    KeyLess(Key([0 - a.messages], a.channel), Key([0 - b.messages], b.channel))
  }

  lemma BusierIsOrder()
    ensures StrictOrder(Busier)
  {
    forall a, b ensures Busier(a, b) ==> !Busier(b, a) {
      KeyOrder(Key([0 - a.messages], a.channel), Key([0 - b.messages], b.channel), Key([], []));
    }
    forall a, b, c ensures Busier(a, b) && Busier(b, c) ==> Busier(a, c) {
      KeyOrder(Key([0 - a.messages], a.channel), Key([0 - b.messages], b.channel), Key([0 - c.messages], c.channel));
    }
  }

  /** One row for each day that has messages, in ascending order. */
  ghost predicate DailyOk(daily: seq<DailyRow>, messages: seq<Message>) {
    && (forall row :: row in daily <==> row == DailyRowOf(messages, row.day) && Under(DayOf, messages, row.day) != [])
    && Sorted(DayBefore, daily)
  }

  /** One row for each channel that has messages, the busiest first. */
  ghost predicate ChannelRowsOk(channels: seq<ChannelRow>, messages: seq<Message>) {
    && (forall row :: row in channels <==>
          row == ChannelRowOf(messages, row.channel) && Under(ChannelOf, messages, row.channel) != [])
    && Sorted(Busier, channels)
  }

  /** Keys listed once, and exactly those of the messages. */
  ghost predicate KeysAre<K(!new)>(keys: seq<K>, keyOf: Message -> K, messages: seq<Message>) {
    Distinct(keys) && forall key :: key in keys <==> Under(keyOf, messages, key) != []
  }

  lemma DailySorted(keys: seq<int>, rows: seq<DailyRow>, messages: seq<Message>)
    requires KeysAre(keys, DayOf, messages)
    requires |rows| == |keys| && forall j :: 0 <= j < |keys| ==> rows[j] == DailyRowOf(messages, keys[j])
    ensures DailyOk(Sort(DayBefore, rows), messages)
  {
    SortSorts(DayBefore, rows);
    SameElements(Sort(DayBefore, rows), rows);
    forall row ensures row in rows <==> row == DailyRowOf(messages, row.day) && Under(DayOf, messages, row.day) != [] {
      if row.day in keys {
        var i :| 0 <= i < |keys| && keys[i] == row.day;
        assert rows[i] == DailyRowOf(messages, row.day);
      }
    }
  }

  lemma ChannelsSorted(keys: seq<Text>, rows: seq<ChannelRow>, messages: seq<Message>)
    requires KeysAre(keys, ChannelOf, messages)
    requires |rows| == |keys| && forall j :: 0 <= j < |keys| ==> rows[j] == ChannelRowOf(messages, keys[j])
    ensures ChannelRowsOk(Sort(Busier, rows), messages)
  {
    ChannelElements(keys, rows, messages);
    BusierComparable(rows);
    SortSorts(Busier, rows);
    SameElements(Sort(Busier, rows), rows);
  }

  lemma ChannelElements(keys: seq<Text>, rows: seq<ChannelRow>, messages: seq<Message>)
    requires KeysAre(keys, ChannelOf, messages)
    requires |rows| == |keys| && forall j :: 0 <= j < |keys| ==> rows[j] == ChannelRowOf(messages, keys[j])
    ensures forall row :: row in rows <==>
              row == ChannelRowOf(messages, row.channel) && Under(ChannelOf, messages, row.channel) != []
    ensures forall i, j :: 0 <= i < j < |rows| ==> rows[i].channel != rows[j].channel
  {
  }

  method DailyRows(days: Buckets<int>, messages: seq<Message>) returns (daily: seq<DailyRow>)
    requires BucketsOk(days, DayOf, messages)
    ensures DailyOk(daily, messages)
  {
    assert forall day :: EntryIs(days, day, Under(DayOf, messages, day));
    var keys := ListKeys(days.messages.Keys);
    var rows: seq<DailyRow> := [];
    for i := 0 to |keys|
      invariant |rows| == i && forall j :: 0 <= j < i ==> rows[j] == DailyRowOf(messages, keys[j])
    {
      var day := keys[i];
      assert EntryIs(days, day, Under(DayOf, messages, day));
      rows := rows + [DailyRow(day, days.messages[day], |Get(days.runs, day, {})|,
                               Get(days.users, day, 0), Get(days.assistants, day, 0))];
    }
    DailySorted(keys, rows, messages);
    daily := Sort(DayBefore, rows);
  }

  method ChannelRows(channels: Buckets<Text>, messages: seq<Message>) returns (sorted: seq<ChannelRow>)
    requires BucketsOk(channels, ChannelOf, messages)
    ensures ChannelRowsOk(sorted, messages)
  {
    assert forall c :: EntryIs(channels, c, Under(ChannelOf, messages, c));
    var keys := ListKeys(channels.messages.Keys);
    var rows: seq<ChannelRow> := [];
    for i := 0 to |keys|
      invariant |rows| == i && forall j :: 0 <= j < i ==> rows[j] == ChannelRowOf(messages, keys[j])
    {
      assert EntryIs(channels, keys[i], Under(ChannelOf, messages, keys[i]));
      rows := rows + [ChannelRow(keys[i], channels.messages[keys[i]], |Get(channels.runs, keys[i], {})|)];
    }
    ChannelsSorted(keys, rows, messages);
    sorted := Sort(Busier, rows);
  }

  lemma BusierComparable(rows: seq<ChannelRow>)
    requires forall i, j :: 0 <= i < j < |rows| ==> rows[i].channel != rows[j].channel
    ensures StrictOrder(Busier) && Comparable(Busier, rows)
  {
    BusierIsOrder();
    forall i, j | 0 <= i < j < |rows| ensures Busier(rows[i], rows[j]) || Busier(rows[j], rows[i]) {
      KeyOrder(Key([0 - rows[i].messages], rows[i].channel), Key([0 - rows[j].messages], rows[j].channel), Key([], []));
    }
  }

  ghost predicate StatsOk(stats: Stats, messages: seq<Message>) {
    && stats.summary == Summary(|messages|, |Runs(messages)|, Users(messages), Assistants(messages), |stats.daily|)
    && DailyOk(stats.daily, messages) && ChannelRowsOk(stats.channels, messages)
  }

  method GetUsageStats(messages: seq<Message>) returns (stats: Stats)
    ensures StatsOk(stats, messages)
    ensures stats.summary.users == |From(messages, false)| && stats.summary.assistants == |From(messages, true)|
    ensures forall row | row in stats.daily ::
              var under := Under(DayOf, messages, row.day);
              && row.messages == |under| && row.runs == |Runs(under)|
              && row.users == |From(under, false)| && row.assistants == |From(under, true)|
    ensures forall row | row in stats.channels ::
              var under := Under(ChannelOf, messages, row.channel);
              row.messages == |under| && row.runs == |Runs(under)|
    ensures forall i, j :: 0 <= i < j < |stats.daily| ==> stats.daily[i].day < stats.daily[j].day
    ensures forall i, j :: 0 <= i < j < |stats.channels| ==>
              var a, b := stats.channels[i], stats.channels[j];
              a.messages > b.messages || (a.messages == b.messages && LexLess(a.channel, b.channel))
  {
    CountsAre(messages);
    var days, channels, users, assistants, runs := Aggregate(messages);
    var daily := DailyRows(days, messages);
    var channelRows := ChannelRows(channels, messages);
    stats := Stats(Summary(|messages|, |runs|, users, assistants, |daily|), daily, channelRows);
    RowsCount(daily, messages);
    BusiestFirst(channelRows);
  }

  lemma RowsCount(daily: seq<DailyRow>, messages: seq<Message>)
    requires DailyOk(daily, messages)
    ensures forall row | row in daily ::
              var under := Under(DayOf, messages, row.day);
              row.users == |From(under, false)| && row.assistants == |From(under, true)|
  {
    forall row | row in daily
      ensures var under := Under(DayOf, messages, row.day);
              row.users == |From(under, false)| && row.assistants == |From(under, true)|
    {
      CountsAre(Under(DayOf, messages, row.day));
    }
  }

  lemma BusiestFirst(rows: seq<ChannelRow>)
    requires Sorted(Busier, rows)
    ensures forall i, j :: 0 <= i < j < |rows| ==>
              rows[i].messages > rows[j].messages
              || (rows[i].messages == rows[j].messages && LexLess(rows[i].channel, rows[j].channel))
  {
    forall i, j | 0 <= i < j < |rows|
      ensures rows[i].messages > rows[j].messages
              || (rows[i].messages == rows[j].messages && LexLess(rows[i].channel, rows[j].channel))
    {
      assert Busier(rows[i], rows[j]);
      LexOne(0 - rows[i].messages, 0 - rows[j].messages);
    }
  }

  /** The messages under a key are those that have it, each as often as there is one. */
  lemma {:induction false} UnderIs<K>(keyOf: Message -> K, messages: seq<Message>, key: K, m: Message)
    ensures multiset(Under(keyOf, messages, key))[m] == if keyOf(m) == key then multiset(messages)[m] else 0
  {
    if messages != [] {
      UnderIs(keyOf, messages[..|messages| - 1], key, m);
      assert messages == messages[..|messages| - 1] + [messages[|messages| - 1]];
    }
  }

  // ---- conservation ---------------------------------------------------

  /** The messages whose key is another one. */
  function Off<K(==)>(keyOf: Message -> K, messages: seq<Message>, key: K): seq<Message> {
    if messages == [] then []
    else
      var init, last := Off(keyOf, messages[..|messages| - 1], key), messages[|messages| - 1];
      if keyOf(last) == key then init else init + [last]
  }

  /** Taking out one key takes out its messages and nothing of another key. */
  lemma {:induction false} OffSplits<K>(keyOf: Message -> K, messages: seq<Message>, key: K, other: K)
    ensures var off, under := Off(keyOf, messages, key), Under(keyOf, messages, key);
            && |messages| == |off| + |under|
            && Users(messages) == Users(off) + Users(under)
            && Assistants(messages) == Assistants(off) + Assistants(under)
            && Runs(messages) == Runs(off) + Runs(under)
            && Under(keyOf, off, other) == if other == key then [] else Under(keyOf, messages, other)
  {
    if messages != [] {
      var init, last := messages[..|messages| - 1], messages[|messages| - 1];
      OffSplits(keyOf, init, key, other);
      CountOne(Off(keyOf, init, key), last);
      CountOne(Under(keyOf, init, key), last);
      UnderOne(keyOf, Off(keyOf, init, key), last, other);
    }
  }

  /** What the rows for some keys say in sum. */
  datatype Totals = Totals(messages: nat, users: nat, assistants: nat, runs: set<Text>)

  function Sum<K(==)>(keyOf: Message -> K, messages: seq<Message>, keys: seq<K>): Totals {
    if keys == [] then Totals(0, 0, 0, {})
    else
      var rest, under := Sum(keyOf, messages, keys[1..]), Under(keyOf, messages, keys[0]);
      Totals(|under| + rest.messages, Users(under) + rest.users, Assistants(under) + rest.assistants,
             Runs(under) + rest.runs)
  }

  /** Sums over other keys do not notice that one key is taken out. */
  lemma {:induction false} SumOff<K>(keyOf: Message -> K, messages: seq<Message>, key: K, keys: seq<K>)
    requires key !in keys
    ensures Sum(keyOf, Off(keyOf, messages, key), keys) == Sum(keyOf, messages, keys)
  {
    if keys != [] {
      OffSplits(keyOf, messages, key, keys[0]);
      SumOff(keyOf, messages, key, keys[1..]);
    }
  }

  lemma LastKeyOccurs<K>(keyOf: Message -> K, messages: seq<Message>)
    ensures messages != [] ==> Under(keyOf, messages, keyOf(messages[|messages| - 1])) != []
  {
  }

  /**
   Main result: whatever the key, the sums over all its values are the totals,
   and the union of the run sets is the run set.
   */
  lemma {:induction false} SumsAreTotals<K(!new)>(keyOf: Message -> K, messages: seq<Message>, keys: seq<K>)
    requires Distinct(keys) && forall key :: Under(keyOf, messages, key) != [] ==> key in keys
    ensures Sum(keyOf, messages, keys) == Totals(|messages|, Users(messages), Assistants(messages), Runs(messages))
    decreases |keys|
  {
    if keys == [] {
      LastKeyOccurs(keyOf, messages);
    } else {
      var key, rest := keys[0], keys[1..];
      var off := Off(keyOf, messages, key);
      OffSplits(keyOf, messages, key, key);
      forall other | Under(keyOf, off, other) != [] ensures other in rest {
        OffSplits(keyOf, messages, key, other);
      }
      SumsAreTotals(keyOf, off, rest);
      SumOff(keyOf, messages, key, rest);
    }
  }

  function Days(rows: seq<DailyRow>): (days: seq<int>)
    ensures |days| == |rows| && forall i :: 0 <= i < |rows| ==> days[i] == rows[i].day
  {
    seq(|rows|, i requires 0 <= i < |rows| => rows[i].day)
  }

  function Channels(rows: seq<ChannelRow>): (channels: seq<Text>)
    ensures |channels| == |rows| && forall i :: 0 <= i < |rows| ==> channels[i] == rows[i].channel
  {
    seq(|rows|, i requires 0 <= i < |rows| => rows[i].channel)
  }

  function DailyMessages(rows: seq<DailyRow>): nat {
    if rows == [] then 0 else rows[0].messages + DailyMessages(rows[1..])
  }

  function DailyUsers(rows: seq<DailyRow>): nat {
    if rows == [] then 0 else rows[0].users + DailyUsers(rows[1..])
  }

  function DailyAssistants(rows: seq<DailyRow>): nat {
    if rows == [] then 0 else rows[0].assistants + DailyAssistants(rows[1..])
  }

  function ChannelMessages(rows: seq<ChannelRow>): nat {
    if rows == [] then 0 else rows[0].messages + ChannelMessages(rows[1..])
  }

  lemma {:induction false} DailySums(messages: seq<Message>, rows: seq<DailyRow>)
    requires forall i :: 0 <= i < |rows| ==> rows[i] == DailyRowOf(messages, rows[i].day)
    ensures var sum := Sum(DayOf, messages, Days(rows));
            && DailyMessages(rows) == sum.messages && DailyUsers(rows) == sum.users
            && DailyAssistants(rows) == sum.assistants
  {
    if rows != [] {
      DailySums(messages, rows[1..]);
      assert Days(rows)[1..] == Days(rows[1..]);
    }
  }

  lemma {:induction false} ChannelSums(messages: seq<Message>, rows: seq<ChannelRow>)
    requires forall i :: 0 <= i < |rows| ==> rows[i] == ChannelRowOf(messages, rows[i].channel)
    ensures ChannelMessages(rows) == Sum(ChannelOf, messages, Channels(rows)).messages
  {
    if rows != [] {
      ChannelSums(messages, rows[1..]);
      assert Channels(rows)[1..] == Channels(rows[1..]);
    }
  }

  lemma {:induction false} UsersAndAssistants(messages: seq<Message>)
    ensures Users(messages) + Assistants(messages) == |messages|
  {
    if messages != [] {
      UsersAndAssistants(messages[..|messages| - 1]);
    }
  }

  /**
   Main result: daily counts sum to the totals, user and assistant messages
   make up every row and the summary, and the number of runs is the size of
   the union of the daily run sets.
   */
  lemma DailyConserves(stats: Stats, messages: seq<Message>)
    requires StatsOk(stats, messages)
    ensures DailyMessages(stats.daily) == stats.summary.messages == |messages|
    ensures DailyUsers(stats.daily) == stats.summary.users && DailyAssistants(stats.daily) == stats.summary.assistants
    ensures stats.summary.users + stats.summary.assistants == stats.summary.messages
    ensures EveryRowSplits(stats.daily)
    ensures stats.summary.runs == |Sum(DayOf, messages, Days(stats.daily)).runs|
  {
    DaysCovered(stats.daily, messages);
    DailyTotals(stats.daily, messages);
    RowsSplit(stats.daily, messages);
    UsersAndAssistants(messages);
  }

  lemma DailyTotals(daily: seq<DailyRow>, messages: seq<Message>)
    requires Distinct(Days(daily)) && forall day :: Under(DayOf, messages, day) != [] ==> day in Days(daily)
    requires forall i :: 0 <= i < |daily| ==> daily[i] == DailyRowOf(messages, daily[i].day)
    ensures DailyMessages(daily) == |messages|
    ensures DailyUsers(daily) == Users(messages) && DailyAssistants(daily) == Assistants(messages)
    ensures Sum(DayOf, messages, Days(daily)).runs == Runs(messages)
  {
    SumsAreTotals(DayOf, messages, Days(daily));
    DailySums(messages, daily);
  }

  lemma DaysCovered(daily: seq<DailyRow>, messages: seq<Message>)
    requires DailyOk(daily, messages)
    ensures Distinct(Days(daily)) && forall day :: Under(DayOf, messages, day) != [] ==> day in Days(daily)
    ensures forall i :: 0 <= i < |daily| ==> daily[i] == DailyRowOf(messages, daily[i].day)
  {
    assert forall i :: 0 <= i < |daily| ==> daily[i] in daily;
    forall day | Under(DayOf, messages, day) != [] ensures day in Days(daily) {
      assert DailyRowOf(messages, day) in daily;
      var i :| 0 <= i < |daily| && daily[i] == DailyRowOf(messages, day);
      assert Days(daily)[i] == day;
    }
  }

  predicate EveryRowSplits(daily: seq<DailyRow>) {
    forall i :: 0 <= i < |daily| ==> daily[i].users + daily[i].assistants == daily[i].messages
  }

  lemma RowsSplit(daily: seq<DailyRow>, messages: seq<Message>)
    requires DailyOk(daily, messages)
    ensures EveryRowSplits(daily)
  {
    DaysCovered(daily, messages);
    forall i | 0 <= i < |daily| ensures daily[i].users + daily[i].assistants == daily[i].messages {
      UsersAndAssistants(Under(DayOf, messages, daily[i].day));
    }
  }

  /** Main result: the same for the channels. */
  lemma ChannelsConserve(stats: Stats, messages: seq<Message>)
    requires StatsOk(stats, messages)
    ensures ChannelMessages(stats.channels) == stats.summary.messages
    ensures stats.summary.runs == |Sum(ChannelOf, messages, Channels(stats.channels)).runs|
  {
    var channels := Channels(stats.channels);
    assert forall i :: 0 <= i < |stats.channels| ==> stats.channels[i] in stats.channels;
    forall c | Under(ChannelOf, messages, c) != [] ensures c in channels {
      assert ChannelRowOf(messages, c) in stats.channels;
      var i :| 0 <= i < |stats.channels| && stats.channels[i] == ChannelRowOf(messages, c);
      assert channels[i] == c;
    }
    ChannelRowsDistinct(stats.channels, messages);
    SumsAreTotals(ChannelOf, messages, channels);
    ChannelSums(messages, stats.channels);
  }

  lemma ChannelRowsDistinct(rows: seq<ChannelRow>, messages: seq<Message>)
    requires ChannelRowsOk(rows, messages)
    ensures Distinct(Channels(rows))
  {
    forall i, j | 0 <= i < j < |rows| ensures rows[i].channel != rows[j].channel {
      assert rows[i] in rows && rows[j] in rows && Busier(rows[i], rows[j]);
      BusierIsOrder();
    }
  }

  /** Every channel row is one of the three channels, so there are at most three. */
  lemma AtMostThreeChannels(stats: Stats, messages: seq<Message>)
    requires StatsOk(stats, messages)
    ensures |stats.channels| <= 3
  {
    ChannelRowsDistinct(stats.channels, messages);
    var channels := Channels(stats.channels);
    forall c | c in channels ensures c in {WEB, FEISHU, TELEGRAM} {
      var i :| 0 <= i < |channels| && channels[i] == c;
      assert stats.channels[i] in stats.channels;
      ChannelIsKnown(messages, c);
    }
    DistinctWithin(channels, {WEB, FEISHU, TELEGRAM});
  }

  lemma {:induction false} ChannelIsKnown(messages: seq<Message>, c: Text)
    requires Under(ChannelOf, messages, c) != []
    ensures c in {WEB, FEISHU, TELEGRAM}
  {
    if ChannelOf(messages[|messages| - 1]) != c {
      ChannelIsKnown(messages[..|messages| - 1], c);
    }
  }

  lemma {:induction false} DistinctWithin<K(!new)>(keys: seq<K>, bound: set<K>)
    requires Distinct(keys) && forall k :: k in keys ==> k in bound
    ensures |keys| <= |bound|
  {
    if keys != [] {
      DistinctWithin(keys[1..], bound - {keys[0]});
    }
  }

  // ---- the audit listing ----------------------------------------------

  datatype AuditPage = AuditPage(items: seq<Message>, limit: nat, hasMore: bool)

  predicate InGroup(m: Message, group: Option<Text>) {
    group.Some? ==> GroupOf(m) == group.value
  }

  function Matching(table: seq<Message>, group: Option<Text>): seq<Message> {
    if table == [] then []
    else
      var init, last := Matching(table[..|table| - 1], group), table[|table| - 1];
      if InGroup(last, group) then init + [last] else init
  }

  function Take<T>(s: seq<T>, n: nat): seq<T> {
    if n < |s| then s[..n] else s
  }

  /** Without a group the limit is pushed down into the query. */
  function Candidates(table: seq<Message>, group: Option<Text>, limit: nat): seq<Message> {
    if group.None? then Take(table, limit + 1) else table
  }

  /**
   Main result: the pushed-down limit and the early break give what filtering
   everything and then cutting off gives.
   */
  method ListAuditMessages(table: seq<Message>, limit: int, groupId: Option<Text>) returns (page: AuditPage)
    ensures var n, matching := NormalizeLimit(limit), Matching(table, NonBlank(groupId));
            page == AuditPage(Take(matching, n), n, |matching| > n)
  {
    var n, group := NormalizeLimit(limit), NonBlank(groupId);
    var candidates := Candidates(table, group, n);
    CandidatesSuffice(table, group, n);
    var items := TakeMatching(candidates, group, n);
    page := AuditPage(Take(items, n), n, |items| > n);
  }

  /** The loop over the candidates, which stops once it has one item more than asked for. */
  method TakeMatching(candidates: seq<Message>, group: Option<Text>, n: nat) returns (items: seq<Message>)
    ensures items == Take(Matching(candidates, group), n + 1)
  {
    items := [];
    for i := 0 to |candidates|
      invariant items == Matching(candidates[..i], group) && |items| <= n
    {
      var m := candidates[i];
      assert candidates[..i + 1][..i] == candidates[..i];
      if group.Some? && GroupOf(m) != group.value {
        continue;
      }
      items := items + [m];
      if |items| >= n + 1 {
        MatchingPrefix(candidates, i + 1, group);
        return;
      }
    }
    assert candidates[..|candidates|] == candidates;
  }

  lemma {:induction false} MatchingPrefix(table: seq<Message>, i: nat, group: Option<Text>)
    requires i <= |table|
    ensures Matching(table[..i], group) <= Matching(table, group)
  {
    if i < |table| {
      MatchingPrefix(table[..|table| - 1], i, group);
      assert table[..|table| - 1][..i] == table[..i];
    } else {
      assert table[..i] == table;
    }
  }

  lemma {:induction false} AllMatch(table: seq<Message>)
    ensures Matching(table, None) == table
  {
    if table != [] {
      AllMatch(table[..|table| - 1]);
    }
  }

  /** The matching messages are those of the group, each as often as the table has it. */
  lemma {:induction false} MatchingIs(table: seq<Message>, group: Option<Text>, m: Message)
    ensures multiset(Matching(table, group))[m] ==
              if group.Some? ==> GroupOf(m) == group.value then multiset(table)[m] else 0
  {
    if table != [] {
      MatchingIs(table[..|table| - 1], group, m);
      assert table == table[..|table| - 1] + [table[|table| - 1]];
    }
  }

  lemma CandidatesSuffice(table: seq<Message>, group: Option<Text>, n: nat)
    ensures var all, some := Matching(table, group), Matching(Candidates(table, group, n), group);
            Take(some, n) == Take(all, n) && (|some| > n <==> |all| > n)
  {
    if group.None? {
      AllMatch(table);
      AllMatch(Take(table, n + 1));
    }
  }
}
