/**
The items of a parsed playlist (internal/iptv/m3u.go): which of them share an id, what each shows of its entry, and
that no line of a playlist is passed over in silence.
*/
module M3uItems {
  import opened Wrappers
  import opened Text
  import opened Sequences
  import opened M3uAttributes
  import opened IptvRows
  import opened M3uStream

  // ---------------------------------------------------------------- ids

  /** Digests differ for different texts and are hexadecimal. */
  ghost predicate IsDigest(digest: string -> string) {
    && (forall a, b :: digest(a) == digest(b) ==> a == b)
    && (forall a :: '-' !in digest(a))
  }

  /** The texts that go into an id hold none of the characters that join them. */
  predicate IsSeparable(item: Item) {
    && '\0' !in item.sourceId && '\0' !in item.kind && '\0' !in item.epgId && '\0' !in item.title
    && '\0' !in item.group && '\0' !in item.channelNumber && '\0' !in item.language && '\0' !in item.country
  }

  lemma {:induction false} JoinedApart(a: string, b: string, c: char, x: string, y: string)
    requires c !in a && c !in x && a + [c] + b == x + [c] + y
    ensures a == x && b == y
  {
    var s := a + [c] + b;
    assert s[|a|] == c && s[|x|] == c;
    assert forall i :: 0 <= i < |a| ==> s[i] == a[i] && s[i] != c;
    assert forall i :: 0 <= i < |x| ==> s[i] == x[i] && s[i] != c;
    assert |a| == |x|;
    assert s[..|a|] == a && s[..|x|] == x && s[|a| + 1..] == b && s[|x| + 1..] == y;
  }

  /** The last of the joining characters takes the texts apart, too. */
  lemma JoinedBehind(a: string, b: string, c: char, x: string, y: string)
    requires c !in b && c !in y && a + [c] + b == x + [c] + y
    ensures a == x && b == y
  {
    var s := a + [c] + b;
    assert s[|a|] == c && s[|x|] == c;
    assert forall i :: |a| < i < |s| ==> s[i] == b[i - |a| - 1] && s[i] != c;
    assert forall i :: |x| < i < |s| ==> s[i] == y[i - |x| - 1] && s[i] != c;
    assert |a| == |x|;
    assert s[..|a|] == a && s[..|x|] == x && s[|a| + 1..] == b && s[|x| + 1..] == y;
  }

  /** The catalog metadata of an item that has no id of its own. */
  ghost predicate SameMetadata(a: Item, b: Item) {
    && a.title == b.title && a.group == b.group && a.channelNumber == b.channelNumber && a.language == b.language
    && a.country == b.country
  }

  lemma SameIdentity(words: Vocabulary, e: Entry, f: Entry)
    requires '\0' !in e.id && '\0' !in e.name && '\0' !in e.group && '\0' !in e.channel && '\0' !in e.language
    requires '\0' !in f.id && '\0' !in f.name && '\0' !in f.group && '\0' !in f.channel && '\0' !in f.language
    requires '\0' !in e.country && '\0' !in f.country
    ensures Identity(words, e) == Identity(words, f) <==>
              && e.id == f.id
              && (e.id == "" ==> && e.name == f.name && e.group == f.group && e.channel == f.channel
                                 && e.language == f.language && e.country == f.country)
  {
    MetadataIsMarked(words, e);
    MetadataIsMarked(words, f);
    if Identity(words, e) == Identity(words, f) && e.id == "" && f.id == "" {
      MetadataApart(words, e, f);
    }
  }

  lemma MetadataIsMarked(words: Vocabulary, entry: Entry)
    ensures if entry.id == "" then '\0' in Identity(words, entry) else Identity(words, entry) == entry.id
  {
    if entry.id == "" {
      assert Identity(words, entry)[|entry.name|] == '\0';
    }
  }

  function Numbers(words: Vocabulary, entry: Entry): string {
    var episode := words.episode(entry.name);
    words.number(episode.season) + "\0" + words.number(episode.episode)
  }

  lemma MetadataApart(words: Vocabulary, e: Entry, f: Entry)
    requires e.id == "" && f.id == "" && Identity(words, e) == Identity(words, f)
    requires '\0' !in e.name && '\0' !in e.group && '\0' !in e.channel && '\0' !in e.language && '\0' !in e.country
    requires '\0' !in f.name && '\0' !in f.group && '\0' !in f.channel && '\0' !in f.language && '\0' !in f.country
    ensures e.name == f.name && e.group == f.group && e.channel == f.channel
    ensures e.language == f.language && e.country == f.country
  {
    IdentityIs(words, e);
    IdentityIs(words, f);
    hide Identity, Numbers;
    var a5, b5 := e.country + ['\0'] + Numbers(words, e), f.country + ['\0'] + Numbers(words, f);
    var a4, b4 := e.language + ['\0'] + a5, f.language + ['\0'] + b5;
    var a3, b3 := e.channel + ['\0'] + a4, f.channel + ['\0'] + b4;
    var a2, b2 := e.group + ['\0'] + a3, f.group + ['\0'] + b3;
    JoinedApart(e.name, a2, '\0', f.name, b2);
    JoinedApart(e.group, a3, '\0', f.group, b3);
    JoinedApart(e.channel, a4, '\0', f.channel, b4);
    JoinedApart(e.language, a5, '\0', f.language, b5);
    JoinedApart(e.country, Numbers(words, e), '\0', f.country, Numbers(words, f));
  }

  lemma IdentityIs(words: Vocabulary, e: Entry)
    requires e.id == ""
    ensures var a5 := e.country + ['\0'] + Numbers(words, e);
            var a3 := e.channel + ['\0'] + (e.language + ['\0'] + a5);
            Identity(words, e) == e.name + ['\0'] + (e.group + ['\0'] + a3)
  {
    hide Numbers;
    var episode := words.episode(e.name);
    NumbersAre(words, e);
    assert "\0" == ['\0'];
  }

  lemma NumbersAre(words: Vocabulary, e: Entry)
    ensures var episode := words.episode(e.name);
            Numbers(words, e) == words.number(episode.season) + "\0" + words.number(episode.episode)
  {
  }

  lemma BuiltIds(words: Vocabulary, a: Options, b: Options, e: Entry, f: Entry, urlA: string, urlB: string)
    requires IsDigest(words.digest)
    requires IsSeparable(BuildItem(words, a, e, urlA)) && IsSeparable(BuildItem(words, b, f, urlB))
    ensures var i, j := BuildItem(words, a, e, urlA), BuildItem(words, b, f, urlB);
            i.id == j.id <==>
              && i.sourceId == j.sourceId && i.kind == j.kind && i.epgId == j.epgId
              && (i.epgId == "" ==> SameMetadata(i, j))
  {
    var i, j := BuildItem(words, a, e, urlA), BuildItem(words, b, f, urlB);
    SameIdentity(words, e, f);
    hide Identity;
    var x, y := i.kind + ['\0'] + Identity(words, e), j.kind + ['\0'] + Identity(words, f);
    var s, t := i.sourceId + ['\0'] + x, j.sourceId + ['\0'] + y;
    assert s == i.sourceId + "\0" + i.kind + "\0" + Identity(words, e);
    assert t == j.sourceId + "\0" + j.kind + "\0" + Identity(words, f);
    assert i.id == i.kind + "-" + words.digest(s) && j.id == j.kind + "-" + words.digest(t);
    if i.id == j.id {
      JoinedBehind(i.kind, words.digest(s), '-', j.kind, words.digest(t));
      JoinedApart(i.sourceId, x, '\0', j.sourceId, y);
      JoinedApart(i.kind, Identity(words, e), '\0', j.kind, Identity(words, f));
    }
  }

  /** Every item of a parse was built from an entry and a URL. */
  ghost predicate IsBuilt(words: Vocabulary, options: Options, item: Item) {
    exists entry, url :: item == BuildItem(words, options, entry, url)
  }

  lemma {:induction false} ItemsAreBuilt(words: Vocabulary, options: Options, lines: seq<string>)
    ensures forall item :: item in ParseLines(words, options, lines).items ==> IsBuilt(words, options, item)
  {
    hide ParsedExtinf, Classified, BuildItem, Warned;
    if lines != [] {
      ItemsAreBuilt(words, options, lines[..|lines| - 1]);
    }
  }

  /**
  Two items, of one playlist or of two, share an id exactly when they belong to one source, are of one kind, and have
  the same id in their playlists or, without one, agree in name, group, channel, language and country.
  */
  lemma IdsAgreeExactly(
    words: Vocabulary, a: Options, b: Options, linesA: seq<string>, linesB: seq<string>, i: Item, j: Item)
    requires IsDigest(words.digest) && IsSeparable(i) && IsSeparable(j)
    requires i in ParseLines(words, a, linesA).items && j in ParseLines(words, b, linesB).items
    ensures i.id == j.id <==>
              && i.sourceId == j.sourceId && i.kind == j.kind && i.epgId == j.epgId
              && (i.epgId == "" ==> SameMetadata(i, j))
  {
    hide ParseLines, BuildItem, IsSeparable, SameMetadata;
    ItemsAreBuilt(words, a, linesA);
    ItemsAreBuilt(words, b, linesB);
    var e, urlA :| i == BuildItem(words, a, e, urlA);
    var f, urlB :| j == BuildItem(words, b, f, urlB);
    BuiltIds(words, a, b, e, f, urlA, urlB);
  }

  // ---------------------------------------------------------------- what an item shows

  /** A channel as a playlist lists it: its entry line and its URL, and perhaps a group line before either of them. */
  datatype Listing = Listing(
    groupLine: Option<string>, pairs: seq<Pair>, title: string, lateGroup: Option<string>, url: string)

  /** Titles and URLs stand on lines of their own, without white space around them. */
  ghost predicate IsListing(listing: Listing) {
    && Keyed(listing.pairs)
    && listing.title != "" && Trim(listing.title) == listing.title
    && listing.url != "" && Trim(listing.url) == listing.url && listing.url[0] != '#' && !(BOM <= listing.url)
  }

  function GroupLines(name: Option<string>): seq<string> {
    if name.Some? then ["#EXTGRP:" + name.value] else []
  }

  function EntryLine(listing: Listing): string {
    "#EXTINF:" + "-1" + PrintedPairs(listing.pairs) + "," + listing.title
  }

  function Lines(listing: Listing): seq<string> {
    GroupLines(listing.groupLine) + [EntryLine(listing)] + GroupLines(listing.lateGroup) + [listing.url]
  }

  function PlaylistOf(list: seq<Listing>): seq<string> {
    if list == [] then ["#EXTM3U"] else PlaylistOf(list[..|list| - 1]) + Lines(list[|list| - 1])
  }

  /** The group in force behind a group line, if there is one. */
  function GroupAfter(group: string, name: Option<string>): string {
    if name.Some? then Trim(name.value) else group
  }

  /** The group in force behind the first k listings. */
  function GroupAt(list: seq<Listing>, k: nat): string
    requires k <= |list|
  {
    if k == 0 then "" else GroupAfter(GroupAfter(GroupAt(list, k - 1), list[k - 1].groupLine), list[k - 1].lateGroup)
  }

  /** The last pair with a key, in any case. */
  ghost predicate IsLastOf(pairs: seq<Pair>, key: string, i: nat) {
    i < |pairs| && Lower(pairs[i].key) == key && forall j :: i < j < |pairs| ==> Lower(pairs[j].key) != key
  }

  ghost predicate HasKey(pairs: seq<Pair>, key: string) {
    exists i :: 0 <= i < |pairs| && Lower(pairs[i].key) == key
  }

  /** The value a list of pairs gives a key: that of the last pair with this key, or none. */
  ghost predicate Gives(pairs: seq<Pair>, key: string, value: string) {
    || (exists i: nat :: IsLastOf(pairs, key, i) && pairs[i].value == value)
    || (value == "" && !HasKey(pairs, key))
  }

  ghost predicate ShowsValue(pairs: seq<Pair>, key: string, shown: string) {
    exists value :: Gives(pairs, key, value) && shown == Trim(value)
  }

  /** The group of a listing: its own, else the one in force at its entry line, else one given right behind it. */
  ghost predicate ShowsGroup(shown: string, listing: Listing, group: string) {
    exists own :: ShowsValue(listing.pairs, "group-title", own)
      && shown == if own != "" then own else if group != "" then group else GroupAfter("", listing.lateGroup)
  }

  /** The item shows everything the playlist says of a listing; `group` is in force at the entry line. */
  ghost predicate Shows(item: Item, listing: Listing, group: string, options: Options, words: Vocabulary) {
    && item.sourceId == options.sourceId && item.sourceName == options.sourceName
    && item.title == listing.title && item.streamUrl == listing.url
    && ShowsValue(listing.pairs, "tvg-id", item.epgId) && ShowsValue(listing.pairs, "tvg-logo", item.logoUrl)
    && ShowsValue(listing.pairs, "tvg-chno", item.channelNumber)
    && ShowsValue(listing.pairs, "tvg-language", item.language)
    && ShowsValue(listing.pairs, "tvg-country", item.country)
    && ShowsGroup(item.group, listing, group)
    && item.episode == words.episode(listing.title)
    && (exists kind :: ShowsValue(listing.pairs, "tvg-type", kind)
          && (item.kind, item.classification)
             == words.classify(Entry(item.epgId, item.title, item.group, item.logoUrl, item.channelNumber,
                                     item.language, item.country, kind)))
  }

  /** What reading back printed pairs gives is what the pairs give. */
  lemma {:induction false} AsMapGives(pairs: seq<Pair>, found: map<string, string>, key: string)
    ensures var m := AsMap(pairs, found);
            if HasKey(pairs, key) then key in m && exists i: nat :: IsLastOf(pairs, key, i) && pairs[i].value == m[key]
            else (key in m <==> key in found) && (key in found ==> m[key] == found[key])
    decreases |pairs|
  {
    hide Lower, AsMap;
    if pairs == [] {
      AsMapStops(found);
    } else {
      var rest, more := pairs[1..], found[Lower(pairs[0].key) := pairs[0].value];
      AsMapGoesOn(pairs, found);
      AsMapGives(rest, more, key);
      assert forall j :: 0 < j < |pairs| ==> pairs[j] == rest[j - 1];
      assert HasKey(rest, key) ==> HasKey(pairs, key) by {
        assert forall j :: 0 <= j < |rest| ==> rest[j] == pairs[j + 1];
      }
      if i: nat :| IsLastOf(rest, key, i) && rest[i].value == AsMap(rest, more)[key] {
        assert pairs[i + 1] == rest[i] && IsLastOf(pairs, key, i + 1);
      } else if Lower(pairs[0].key) == key {
        assert IsLastOf(pairs, key, 0);
      }
    }
  }

  lemma AsMapStops(found: map<string, string>)
    ensures AsMap([], found) == found
  {
  }

  lemma AsMapGoesOn(pairs: seq<Pair>, found: map<string, string>)
    requires pairs != []
    ensures AsMap(pairs, found) == AsMap(pairs[1..], found[Lower(pairs[0].key) := pairs[0].value])
  {
  }

  lemma GetGives(pairs: seq<Pair>, key: string)
    ensures Gives(pairs, key, Get(AsMap(pairs, map[]), key))
    ensures ShowsValue(pairs, key, Trim(Get(AsMap(pairs, map[]), key)))
  {
    hide Lower, Trim;
    AsMapGives(pairs, map[], key);
  }

  lemma EntryLineIsInfo(listing: Listing)
    requires IsListing(listing)
    ensures Classified(EntryLine(listing)) == Info(EntryLine(listing))
  {
    hide PrintedPairs;
    var line := EntryLine(listing);
    assert line[|line| - 1] == listing.title[|listing.title| - 1];
    assert line[0] == '#';
    TrimSplits(listing.title);
    TrimKeeps(line);
    hide Trim;
    assert |EXTM3U| < |line|;
    assert line[..8] == "#EXTINF:";
    assert Upper(line)[..8] == EXTINF;
  }

  lemma UrlLineIsUrl(url: string)
    requires url != "" && Trim(url) == url && url[0] != '#' && !(BOM <= url)
    ensures Classified(url) == Url(url)
  {
    hide Trim;
    assert Upper(url)[0] == UpperChar(url[0]) != '#';
    assert EXTM3U[0] == EXTINF[0] == EXTGRP[0] == '#';
  }

  lemma GroupLineIsGroup(name: string)
    ensures Classified("#EXTGRP:" + name) == Group(Trim(name))
  {
    TrimBehind("#EXTGRP:", name);
    hide Trim, End;
    var cut := name[..End(name, |name|)];
    GroupLineStarts(cut);
    assert !(BOM <= "#EXTGRP:" + name) by {
      assert ("#EXTGRP:" + name)[0] == '#' && BOM[0] != '#';
    }
    assert ("#EXTGRP:" + cut)[8..] == cut;
  }

  lemma GroupLineStarts(name: string)
    ensures var line := "#EXTGRP:" + name;
            EXTGRP <= Upper(line) && !(EXTINF <= Upper(line)) && Upper(line) != EXTM3U && line != ""
  {
    var line := "#EXTGRP:" + name;
    assert forall i :: 0 <= i < 8 ==> line[i] == "#EXTGRP:"[i];
    assert |Upper(line)| == |line| && Upper(line)[4] == 'G';
    assert Upper(line)[..8] == EXTGRP;
  }

  lemma HeaderIsIgnored()
    ensures Classified("#EXTM3U") == Ignored
  {
    TrimKeeps("#EXTM3U");
    hide Trim;
    assert Upper("#EXTM3U") == "#EXTM3U";
  }

  lemma ParseOneMore(words: Vocabulary, options: Options, lines: seq<string>, line: string)
    ensures ParseLines(words, options, lines + [line])
            == AfterLine(words, options, ParseLines(words, options, lines), line)
  {
    assert (lines + [line])[..|lines|] == lines;
  }

  /** Between two listings: no entry waits for its URL, and there is room. */
  predicate IsReady(parse: Parse) {
    parse.pending == None && !parse.full
  }

  /** What a group line does to an entry that waits for its URL. */
  function Regrouped(pending: Option<Entry>, name: Option<string>): Option<Entry> {
    if pending.Some? && pending.value.group == "" then
      Some(pending.value.(group := GroupAfter("", name)))
    else pending
  }

  lemma GroupLinesAreRead(words: Vocabulary, options: Options, before: seq<string>, name: Option<string>)
    requires !ParseLines(words, options, before).full
    ensures var parse := ParseLines(words, options, before);
            var after := ParseLines(words, options, before + GroupLines(name));
            && !after.full && after.items == parse.items && after.warnings == parse.warnings
            && after.group == GroupAfter(parse.group, name) && after.pending == Regrouped(parse.pending, name)
  {
    hide Classified, Trim, ParseLines;
    if name.Some? {
      GroupLineIsGroup(name.value);
      ParseOneMore(words, options, before, "#EXTGRP:" + name.value);
    } else {
      assert before + [] == before;
    }
  }

  /** The entry of an entry line, before its group is settled. */
  function EntryOf(listing: Listing): Entry {
    var attributes := AsMap(listing.pairs, map[]);
    Entry(Trim(Get(attributes, "tvg-id")), listing.title, Trim(Get(attributes, "group-title")),
          Trim(Get(attributes, "tvg-logo")), Trim(Get(attributes, "tvg-chno")),
          Trim(Get(attributes, "tvg-language")), Trim(Get(attributes, "tvg-country")),
          Trim(Get(attributes, "tvg-type")))
  }

  function Placed(listing: Listing, group: string): Entry {
    if EntryOf(listing).group == "" then EntryOf(listing).(group := group) else EntryOf(listing)
  }

  lemma EntryLineIsRead(words: Vocabulary, options: Options, before: seq<string>, listing: Listing)
    requires IsListing(listing) && IsReady(ParseLines(words, options, before))
    ensures var parse := ParseLines(words, options, before);
            var after := ParseLines(words, options, before + [EntryLine(listing)]);
            && !after.full && after.items == parse.items && after.warnings == parse.warnings
            && after.group == parse.group && after.pending == Some(Placed(listing, parse.group))
  {
    EntryLineIsInfo(listing);
    EntryRoundTrip(listing.pairs, listing.title);
    hide Classified, Trim, ParseLines, ParsedExtinf, PrintedPairs, AsMap, Get;
    ParseOneMore(words, options, before, EntryLine(listing));
  }

  lemma UrlLineIsRead(words: Vocabulary, options: Options, before: seq<string>, listing: Listing, entry: Entry)
    requires IsListing(listing) && !ParseLines(words, options, before).full
    requires ParseLines(words, options, before).pending == Some(entry)
    requires |ParseLines(words, options, before).items| < options.maxItems
    ensures var parse := ParseLines(words, options, before);
            var after := ParseLines(words, options, before + [listing.url]);
            && IsReady(after) && after.items == parse.items + [BuildItem(words, options, entry, listing.url)]
            && after.warnings == parse.warnings && after.group == parse.group
  {
    UrlLineIsUrl(listing.url);
    hide Classified, Trim, ParseLines, BuildItem;
    ParseOneMore(words, options, before, listing.url);
  }

  /** What becomes of the entry of a listing until its URL comes: only its group is settled. */
  lemma GroupIsShown(listing: Listing, group: string, entry: Entry)
    requires Regrouped(Some(Placed(listing, group)), listing.lateGroup) == Some(entry)
    ensures ShowsGroup(entry.group, listing, group) && entry == EntryOf(listing).(group := entry.group)
  {
    hide Trim, AsMap, Get, ShowsValue, GroupAfter;
    GetGives(listing.pairs, "group-title");
  }

  lemma TextsAreShown(listing: Listing)
    ensures var entry := EntryOf(listing);
            && entry.name == listing.title
            && ShowsValue(listing.pairs, "tvg-id", entry.id) && ShowsValue(listing.pairs, "tvg-logo", entry.logoUrl)
            && ShowsValue(listing.pairs, "tvg-chno", entry.channel)
            && ShowsValue(listing.pairs, "tvg-language", entry.language)
            && ShowsValue(listing.pairs, "tvg-country", entry.country)
            && ShowsValue(listing.pairs, "tvg-type", entry.contentType)
  {
    hide Trim, AsMap, Get, ShowsValue;
    GetGives(listing.pairs, "tvg-id");
    GetGives(listing.pairs, "tvg-logo");
    GetGives(listing.pairs, "tvg-chno");
    GetGives(listing.pairs, "tvg-language");
    GetGives(listing.pairs, "tvg-country");
    GetGives(listing.pairs, "tvg-type");
  }

  lemma BuiltShows(words: Vocabulary, options: Options, listing: Listing, group: string, entry: Entry)
    requires Regrouped(Some(Placed(listing, group)), listing.lateGroup) == Some(entry)
    ensures Shows(BuildItem(words, options, entry, listing.url), listing, group, options, words)
  {
    GroupIsShown(listing, group, entry);
    TextsAreShown(listing);
    hide EntryOf, ShowsValue, ShowsGroup, Placed, Regrouped, StableItemId, Identity;
    var item := BuildItem(words, options, entry, listing.url);
    assert (item.kind, item.classification) == words.classify(entry);
  }

  lemma ListingIsRead(words: Vocabulary, options: Options, before: seq<string>, listing: Listing)
    requires IsListing(listing) && IsReady(ParseLines(words, options, before))
    requires |ParseLines(words, options, before).items| < options.maxItems
    ensures var parse := ParseLines(words, options, before);
            var after := ParseLines(words, options, before + Lines(listing));
            var group := GroupAfter(parse.group, listing.groupLine);
            && IsReady(after) && after.warnings == parse.warnings
            && after.group == GroupAfter(group, listing.lateGroup) && |after.items| == |parse.items| + 1
            && after.items[..|parse.items|] == parse.items
            && Shows(after.items[|parse.items|], listing, group, options, words)
  {
    hide ParseLines, BuildItem, Shows, Placed, EntryLine, GroupLines, IsListing, GroupAfter;
    var l1 := before + GroupLines(listing.groupLine);
    GroupLinesAreRead(words, options, before, listing.groupLine);
    EntryLineIsRead(words, options, l1, listing);
    var group := ParseLines(words, options, l1).group;
    var l2 := l1 + [EntryLine(listing)];
    GroupLinesAreRead(words, options, l2, listing.lateGroup);
    var l3 := l2 + GroupLines(listing.lateGroup);
    var entry := ParseLines(words, options, l3).pending.value;
    UrlLineIsRead(words, options, l3, listing, entry);
    BuiltShows(words, options, listing, group, entry);
    assert before + Lines(listing) == l3 + [listing.url];
  }

  lemma {:induction false} SameGroupAt(list: seq<Listing>, listing: Listing, k: nat)
    requires k <= |list|
    ensures GroupAt(list + [listing], k) == GroupAt(list, k)
  {
    hide Trim;
    if k > 0 {
      SameGroupAt(list, listing, k - 1);
    }
  }

  lemma HeaderIsRead(words: Vocabulary, options: Options)
    ensures var parse := ParseLines(words, options, ["#EXTM3U"]);
            IsReady(parse) && parse.items == [] && parse.warnings == [] && parse.group == ""
  {
    HeaderIsIgnored();
    hide Classified;
    assert [] + ["#EXTM3U"] == ["#EXTM3U"];
    ParseOneMore(words, options, [], "#EXTM3U");
  }

  /**
  A playlist of entry lines and URLs, with group lines in between, yields one item for each listing, in order and
  without a warning; each item shows everything its listing says.
  */
  lemma {:induction false} ItemsShow(words: Vocabulary, options: Options, list: seq<Listing>)
    requires (forall k :: 0 <= k < |list| ==> IsListing(list[k])) && |list| <= options.maxItems
    ensures var parse := ParseLines(words, options, PlaylistOf(list));
            && IsReady(parse) && parse.warnings == [] && parse.group == GroupAt(list, |list|)
            && |parse.items| == |list|
            && forall k :: 0 <= k < |list| ==>
                 Shows(parse.items[k], list[k], GroupAfter(GroupAt(list, k), list[k].groupLine), options, words)
  {
    hide ParseLines, Shows, Lines, IsListing, GroupAfter;
    if list == [] {
      HeaderIsRead(words, options);
    } else {
      var n := |list| - 1;
      var front, last := list[..n], list[n];
      assert list == front + [last];
      ItemsShow(words, options, front);
      ListingIsRead(words, options, PlaylistOf(front), last);
      SameGroupAt(front, last, n);
      var before, after := ParseLines(words, options, PlaylistOf(front)), ParseLines(words, options, PlaylistOf(list));
      assert after.group == GroupAt(list, |list|);
      forall k | 0 <= k < n
        ensures Shows(after.items[k], list[k], GroupAfter(GroupAt(list, k), list[k].groupLine), options, words) {
        SameGroupAt(front, last, k);
        assert after.items[k] == before.items[k];
      }
    }
  }

  // ---------------------------------------------------------------- no line is passed over

  function CountInfos(lines: seq<string>): nat {
    if lines == [] then 0
    else CountInfos(lines[..|lines| - 1]) + if Classified(lines[|lines| - 1]).Info? then 1 else 0
  }

  function CountUrls(lines: seq<string>): nat {
    if lines == [] then 0
    else CountUrls(lines[..|lines| - 1]) + if Classified(lines[|lines| - 1]).Url? then 1 else 0
  }

  /** How many of the warnings are about stream URLs without an entry. */
  function CountOrphans(warnings: seq<Warning>): nat {
    if warnings == [] then 0
    else CountOrphans(warnings[..|warnings| - 1]) + if warnings[|warnings| - 1].code.OrphanStream? then 1 else 0
  }

  lemma WarnedCounts(warnings: seq<Warning>, warning: Warning)
    requires |warnings| < MAX_WARNINGS
    ensures |Warned(warnings, warning)| == |warnings| + 1
    ensures CountOrphans(Warned(warnings, warning))
            == CountOrphans(warnings) + if warning.code.OrphanStream? then 1 else 0
  {
    assert (warnings + [warning])[..|warnings|] == warnings;
  }

  /** So far, every entry line and every URL is in an item, in a warning, or waits. */
  ghost predicate Accounts(parse: Parse, lines: seq<string>) {
    && CountOrphans(parse.warnings) <= |parse.warnings|
    && CountInfos(lines) == |parse.items| + (|parse.warnings| - CountOrphans(parse.warnings))
         + (if parse.pending.Some? then 1 else 0)
    && CountUrls(lines) == |parse.items| + CountOrphans(parse.warnings)
  }

  lemma StepAccounts(words: Vocabulary, options: Options, parse: Parse, lines: seq<string>, line: string)
    requires Accounts(parse, lines) && !parse.full && |parse.warnings| + 2 <= MAX_WARNINGS
    ensures var after := AfterLine(words, options, parse, line); !after.full ==> Accounts(after, lines + [line])
  {
    hide Classified, ParsedExtinf, BuildItem, Warned;
    assert (lines + [line])[..|lines|] == lines;
    var at := parse.line + 1;
    WarnedCounts(parse.warnings, Warning(at, MissingStream));
    WarnedCounts(parse.warnings, Warning(at, OrphanStream));
    match Classified(line)
    case Info(text) =>
      match ParsedExtinf(text) {
        case Ok(_) =>
        case Err(reason) =>
          WarnedCounts(parse.warnings, Warning(at, InvalidExtinf(reason)));
          WarnedCounts(Warned(parse.warnings, Warning(at, MissingStream)), Warning(at, InvalidExtinf(reason)));
      }
    case _ =>
  }

  lemma WarningsGrow(words: Vocabulary, options: Options, parse: Parse, line: string)
    ensures |parse.warnings| <= |AfterLine(words, options, parse, line).warnings|
    ensures |parse.warnings| <= MAX_WARNINGS ==> |AfterLine(words, options, parse, line).warnings| <= MAX_WARNINGS
  {
    hide Classified, ParsedExtinf, BuildItem;
  }

  lemma {:induction false} WarningsAreBounded(words: Vocabulary, options: Options, lines: seq<string>)
    ensures |ParseLines(words, options, lines).warnings| <= MAX_WARNINGS
  {
    hide AfterLine;
    if lines != [] {
      var front := lines[..|lines| - 1];
      WarningsAreBounded(words, options, front);
      WarningsGrow(words, options, ParseLines(words, options, front), lines[|lines| - 1]);
    }
  }

  lemma {:induction false} LinesAreAccounted(words: Vocabulary, options: Options, lines: seq<string>)
    requires !ParseLines(words, options, lines).full && |ParseLines(words, options, lines).warnings| + 2 <= MAX_WARNINGS
    ensures Accounts(ParseLines(words, options, lines), lines)
  {
    hide AfterLine, Accounts;
    if lines == [] {
      NothingToAccount();
    } else {
      var front, last := lines[..|lines| - 1], lines[|lines| - 1];
      var before := ParseLines(words, options, front);
      WarningsGrow(words, options, before, last);
      StaysFullStep(words, options, before, last);
      LinesAreAccounted(words, options, front);
      StepAccounts(words, options, before, front, last);
      assert lines == front + [last];
    }
  }

  lemma StaysFullStep(words: Vocabulary, options: Options, parse: Parse, line: string)
    ensures parse.full ==> AfterLine(words, options, parse, line).full
  {
  }

  lemma NothingToAccount()
    ensures Accounts(START, [])
  {
  }

  /**
  Unless the parse stops or its warnings run full, every entry line becomes an item or a warning, and so does
  every stream URL.
  */
  lemma NoLineIsLost(words: Vocabulary, options: Options, lines: seq<string>)
    requires var parse := ParseLines(words, options, lines); !parse.full && |FinalWarnings(parse)| + 2 <= MAX_WARNINGS
    ensures var parse := ParseLines(words, options, lines);
            var orphans := CountOrphans(FinalWarnings(parse));
            && orphans <= |FinalWarnings(parse)|
            && CountInfos(lines) == |parse.items| + (|FinalWarnings(parse)| - orphans)
            && CountUrls(lines) == |parse.items| + orphans
  {
    hide ParseLines;
    var parse := ParseLines(words, options, lines);
    if |parse.warnings| < MAX_WARNINGS {
      WarnedCounts(parse.warnings, Warning(parse.line, MissingStream));
    }
    LinesAreAccounted(words, options, lines);
  }
}
