/** The list-building of the channel sidebar and the message pane
    (script.js). `displayChannels` walks the guild's channels once, filling
    a `categories` object (category id to the category and its text
    channels) and a `noCategory` list, then renders the uncategorized
    channels followed by every non-empty category in the object's key
    order. `displayMessages` shows a placeholder for an empty list and
    otherwise reverses the fetched list in place. The DOM is abstracted to
    the sequence of items that would be appended. */
module ChannelList {
  import opened Text

  /** Discord's channel type codes the sidebar looks at. */
  const CategoryType: int := 4
  const TextType: int := 0

  datatype Channel = Channel(id: string, kind: int, parentId: Option<string>, name: string)

  /** A value of the `categories` object: the category channel (spread)
      with the text channels collected under it. */
  datatype Group = Group(category: Channel, channels: seq<Channel>)

  /** What the sidebar shows, in order: a lone channel item, or a category
      header with its channels. */
  datatype Item = ChannelItem(channel: Channel) | CategoryBlock(category: Channel, channels: seq<Channel>)

  predicate IsCategory(c: Channel)
  {
    c.kind == CategoryType
  }

  predicate IsText(c: Channel)
  {
    c.kind == TextType
  }

  /** `channel.parent_id` is truthy: present and not the empty string. */
  predicate HasParent(c: Channel)
  {
    c.parentId.Some? && c.parentId.value != ""
  }

  // ---------------------------------------------------------------------
  // What the grouping loop has built after a prefix `cs` of the input.
  // Each function looks at the last channel of the prefix.

  /** The keys of `categories`, in insertion order: each category id at its
      first appearance (assigning an existing key keeps its place). */
  function CategoryIds(cs: seq<Channel>): seq<string>
  {
    if cs == [] then []
    else
      var init, c := cs[..|cs| - 1], cs[|cs| - 1];
      if IsCategory(c) && c.id !in CategoryIds(init) then CategoryIds(init) + [c.id]
      else CategoryIds(init)
  }

  /** A text channel joins a category's list when its parent is truthy and
      a category with that id came earlier in the input. */
  predicate Attached(before: seq<Channel>, c: Channel)
  {
    IsText(c) && HasParent(c) && c.parentId.value in CategoryIds(before)
  }

  /** The `noCategory` list: text channels that were not attached, in input
      order. */
  function Uncategorized(cs: seq<Channel>): seq<Channel>
  {
    if cs == [] then []
    else
      var init, c := cs[..|cs| - 1], cs[|cs| - 1];
      Uncategorized(init) + (if IsText(c) && !Attached(init, c) then [c] else [])
  }

  /** The channel list of category `k`: the text channels attached to `k`
      since the LAST category with id `k`, which started the list afresh. */
  function Members(cs: seq<Channel>, k: string): seq<Channel>
  {
    if cs == [] then []
    else
      var init, c := cs[..|cs| - 1], cs[|cs| - 1];
      if IsCategory(c) && c.id == k then []
      else if Attached(init, c) && c.parentId.value == k then Members(init, k) + [c]
      else Members(init, k)
  }

  /** The category channel stored under `k`: the last one with that id. */
  function LastCategory(cs: seq<Channel>, k: string): Option<Channel>
  {
    if cs == [] then None
    else
      var init, c := cs[..|cs| - 1], cs[|cs| - 1];
      if IsCategory(c) && c.id == k then Some(c) else LastCategory(init, k)
  }

  /** The loop's state agrees with the specification functions on `cs`. */
  ghost predicate Grouped(cs: seq<Channel>, noCategory: seq<Channel>, order: seq<string>, groups: map<string, Group>)
  {
    && noCategory == Uncategorized(cs)
    && order == CategoryIds(cs)
    && (forall k :: k in groups <==> k in order)
    && (forall k | k in groups ::
          LastCategory(cs, k) == Some(groups[k].category) && groups[k].channels == Members(cs, k))
  }

  /** The `channels.forEach` loop of `displayChannels`. `order` is the key
      order of the `categories` object, which `Object.values` follows. */
  method GroupChannels(channels: seq<Channel>) returns (noCategory: seq<Channel>, order: seq<string>, groups: map<string, Group>)
    ensures Grouped(channels, noCategory, order, groups)
  {
    noCategory, order, groups := [], [], map[];
    var i := 0;
    while i < |channels|
      invariant 0 <= i <= |channels|
      invariant Grouped(channels[..i], noCategory, order, groups)
    {
      var c := channels[i];
      assert channels[..i + 1][..i] == channels[..i];
      if c.kind == CategoryType {
        if c.id !in groups {
          order := order + [c.id];
        }
        groups := groups[c.id := Group(c, [])];
      } else if c.kind == TextType {
        if c.parentId.Some? && c.parentId.value != "" && c.parentId.value in groups {
          var g := groups[c.parentId.value];
          groups := groups[c.parentId.value := g.(channels := g.channels + [c])];
        } else {
          noCategory := noCategory + [c];
        }
      }
      i := i + 1;
    }
    assert channels[..|channels|] == channels;
  }

  // ---------------------------------------------------------------------
  // Rendering.

  /** One channel item per uncategorized channel, in order. */
  function ChannelItems(cs: seq<Channel>): (items: seq<Item>)
    ensures |items| == |cs|
    ensures forall i :: 0 <= i < |cs| ==> items[i] == ChannelItem(cs[i])
  {
    if cs == [] then [] else ChannelItems(cs[..|cs| - 1]) + [ChannelItem(cs[|cs| - 1])]
  }

  /** A block for each key in `order` whose group has channels. */
  function Blocks(order: seq<string>, groups: map<string, Group>): seq<Item>
    requires forall k | k in order :: k in groups
  {
    if order == [] then []
    else
      var g := groups[order[|order| - 1]];
      Blocks(order[..|order| - 1], groups)
        + (if g.channels != [] then [CategoryBlock(g.category, g.channels)] else [])
  }

  /** The two render loops of `displayChannels`: the uncategorized channels,
      then the non-empty categories in key order. */
  method Render(noCategory: seq<Channel>, order: seq<string>, groups: map<string, Group>) returns (items: seq<Item>)
    requires forall k | k in order :: k in groups
    ensures items == ChannelItems(noCategory) + Blocks(order, groups)
  {
    items := [];
    var i := 0;
    while i < |noCategory|
      invariant 0 <= i <= |noCategory|
      invariant items == ChannelItems(noCategory[..i])
    {
      assert noCategory[..i + 1][..i] == noCategory[..i];
      items := items + [ChannelItem(noCategory[i])];
      i := i + 1;
    }
    assert noCategory[..i] == noCategory;
    var j := 0;
    while j < |order|
      invariant 0 <= j <= |order|
      invariant items == ChannelItems(noCategory) + Blocks(order[..j], groups)
    {
      assert order[..j + 1][..j] == order[..j];
      var g := groups[order[j]];
      if g.channels != [] {
        items := items + [CategoryBlock(g.category, g.channels)];
      }
      j := j + 1;
    }
    assert order[..j] == order;
  }

  /** The sidebar for `cs`, in terms of the specification functions. */
  function Layout(cs: seq<Channel>): seq<Item>
  {
    ChannelItems(Uncategorized(cs)) + CategoryBlocks(cs, CategoryIds(cs))
  }

  /** A block for each id in `ids` whose category has channels in `cs`. */
  function CategoryBlocks(cs: seq<Channel>, ids: seq<string>): seq<Item>
  {
    if ids == [] then []
    else
      var k := ids[|ids| - 1];
      CategoryBlocks(cs, ids[..|ids| - 1])
        + (if Members(cs, k) != [] && LastCategory(cs, k).Some?
           then [CategoryBlock(LastCategory(cs, k).value, Members(cs, k))] else [])
  }

  /** `displayChannels(channels)`: what it appends to the channel list. */
  method DisplayChannels(channels: seq<Channel>) returns (items: seq<Item>)
    ensures items == Layout(channels)
  {
    var noCategory, order, groups := GroupChannels(channels);
    items := Render(noCategory, order, groups);
    BlocksAgree(channels, order, groups);
  }

  /** Rendering the built groups gives the blocks the specification
      functions describe. */
  lemma {:induction false} BlocksAgree(cs: seq<Channel>, order: seq<string>, groups: map<string, Group>)
    requires forall k | k in order :: k in groups
    requires forall k | k in groups ::
      LastCategory(cs, k) == Some(groups[k].category) && groups[k].channels == Members(cs, k)
    ensures Blocks(order, groups) == CategoryBlocks(cs, order)
    decreases |order|
  {
    if order != [] {
      BlocksAgree(cs, order[..|order| - 1], groups);
    }
  }

  // ---------------------------------------------------------------------
  // Properties of the grouping.

  /** A channel of another type (voice, stage, forum...) changes nothing. */
  lemma OtherTypesIgnored(cs: seq<Channel>, c: Channel, k: string)
    requires !IsText(c) && !IsCategory(c)
    ensures CategoryIds(cs + [c]) == CategoryIds(cs)
    ensures Uncategorized(cs + [c]) == Uncategorized(cs)
    ensures Members(cs + [c], k) == Members(cs, k)
    ensures LastCategory(cs + [c], k) == LastCategory(cs, k)
  {
    assert (cs + [c])[..|cs|] == cs;
  }

  /** The placement rule: a text channel goes to the list of its parent
      exactly when that category came earlier, and to the uncategorized
      list otherwise, also when its category only comes later. */
  lemma Placement(cs: seq<Channel>, c: Channel)
    requires IsText(c)
    ensures Attached(cs, c) ==>
      Members(cs + [c], c.parentId.value) == Members(cs, c.parentId.value) + [c]
      && Uncategorized(cs + [c]) == Uncategorized(cs)
    ensures !Attached(cs, c) ==>
      Uncategorized(cs + [c]) == Uncategorized(cs) + [c]
      && forall k :: Members(cs + [c], k) == Members(cs, k)
    ensures CategoryIds(cs + [c]) == CategoryIds(cs)
  {
    assert (cs + [c])[..|cs|] == cs;
  }

  /** A repeated category id keeps its place in the key order, replaces the
      stored category and empties its channel list. */
  lemma RepeatedCategoryResets(cs: seq<Channel>, c: Channel)
    requires IsCategory(c) && c.id in CategoryIds(cs)
    ensures CategoryIds(cs + [c]) == CategoryIds(cs)
    ensures Members(cs + [c], c.id) == [] && LastCategory(cs + [c], c.id) == Some(c)
    ensures Uncategorized(cs + [c]) == Uncategorized(cs)
  {
    assert (cs + [c])[..|cs|] == cs;
  }

  /** A child listed before its category stays uncategorized; listed after
      it, it joins the category. */
  lemma ChildBeforeCategory(cat: Channel, child: Channel)
    requires IsCategory(cat) && IsText(child) && child.parentId == Some(cat.id) && cat.id != ""
    ensures Uncategorized([child, cat]) == [child] && Members([child, cat], cat.id) == []
    ensures Uncategorized([cat, child]) == [] && Members([cat, child], cat.id) == [child]
  {
    assert [child, cat][..1] == [child] && [cat, child][..1] == [cat];
    assert [child][..0] == [] && [cat][..0] == [];
    assert CategoryIds([child]) == [] && Uncategorized([child]) == [child];
    assert CategoryIds([cat]) == [cat.id] && Uncategorized([cat]) == [];
  }

  /** `s` is `t` with some elements left out, the rest in their order. */
  predicate Subsequence<T(==)>(s: seq<T>, t: seq<T>)
    decreases |t|
  {
    if s == [] then true
    else if t == [] then false
    else if s[|s| - 1] == t[|t| - 1] then Subsequence(s[..|s| - 1], t[..|t| - 1])
    else Subsequence(s, t[..|t| - 1])
  }

  /** A subsequence stays one when the longer list grows. */
  lemma {:induction false} SubsequenceExtend<T>(s: seq<T>, t: seq<T>, x: T)
    requires Subsequence(s, t)
    ensures Subsequence(s, t + [x]) && Subsequence(s + [x], t + [x])
    decreases |t|, 1
  {
    assert (t + [x])[..|t|] == t;
    assert (s + [x])[..|s|] == s;
    if s != [] && s[|s| - 1] == x {
      SubsequenceDropLast(s, t);
    }
  }

  /** ... and when the shorter one loses its last element. */
  lemma {:induction false} SubsequenceDropLast<T>(s: seq<T>, t: seq<T>)
    requires s != [] && Subsequence(s, t)
    ensures Subsequence(s[..|s| - 1], t)
    decreases |t|, 0
  {
    var t', y := t[..|t| - 1], t[|t| - 1];
    assert t' + [y] == t;
    if s[|s| - 1] == y {
      SubsequenceExtend(s[..|s| - 1], t', y);
    } else {
      SubsequenceDropLast(s, t');
      SubsequenceExtend(s[..|s| - 1], t', y);
    }
  }

  /** Order preservation: each list keeps the input order of its channels,
      since channels are only ever pushed at the back. */
  lemma {:induction false} UncategorizedKeepsOrder(cs: seq<Channel>)
    ensures Subsequence(Uncategorized(cs), cs)
  {
    if cs != [] {
      var init, c := cs[..|cs| - 1], cs[|cs| - 1];
      var u := Uncategorized(init);
      UncategorizedKeepsOrder(init);
      assert init + [c] == cs;
      SubsequenceExtend(u, init, c);
      if IsText(c) && !Attached(init, c) {
        assert Uncategorized(cs) == u + [c];
      } else {
        assert Uncategorized(cs) == u;
      }
    }
  }

  lemma {:induction false} MembersKeepOrder(cs: seq<Channel>, k: string)
    ensures Subsequence(Members(cs, k), cs)
  {
    if cs != [] {
      var init, c := cs[..|cs| - 1], cs[|cs| - 1];
      var m := Members(init, k);
      MembersKeepOrder(init, k);
      assert init + [c] == cs;
      SubsequenceExtend(m, init, c);
      if IsCategory(c) && c.id == k {
        assert Members(cs, k) == [];
      } else if Attached(init, c) && c.parentId.value == k {
        assert Members(cs, k) == m + [c];
      } else {
        assert Members(cs, k) == m;
      }
    }
  }

  /** The key order lists each category id once. */
  lemma {:induction false} CategoryIdsDistinct(cs: seq<Channel>)
    ensures forall a, b | 0 <= a < b < |CategoryIds(cs)| :: CategoryIds(cs)[a] != CategoryIds(cs)[b]
  {
    if cs != [] {
      CategoryIdsDistinct(cs[..|cs| - 1]);
    }
  }

  /** The ids of the categories in the input are exactly the keys. */
  lemma {:induction false} CategoryIdsAreCategories(cs: seq<Channel>, k: string)
    ensures k in CategoryIds(cs) <==> LastCategory(cs, k).Some?
    ensures LastCategory(cs, k).Some? ==> LastCategory(cs, k).value.id == k && IsCategory(LastCategory(cs, k).value)
  {
    if cs != [] {
      CategoryIdsAreCategories(cs[..|cs| - 1], k);
    }
  }

  /** The render order: uncategorized channels come first, and every
      category block that follows has at least one channel. */
  lemma {:induction false} NoEmptyCategoryRendered(cs: seq<Channel>, ids: seq<string>, i: nat)
    requires i < |CategoryBlocks(cs, ids)|
    ensures CategoryBlocks(cs, ids)[i].CategoryBlock? && CategoryBlocks(cs, ids)[i].channels != []
    decreases |ids|
  {
    var init := ids[..|ids| - 1];
    if i < |CategoryBlocks(cs, init)| {
      NoEmptyCategoryRendered(cs, init, i);
    }
  }

  lemma LayoutOrder(cs: seq<Channel>, i: nat)
    requires i < |Layout(cs)|
    ensures i < |Uncategorized(cs)| ==> Layout(cs)[i] == ChannelItem(Uncategorized(cs)[i])
    ensures i >= |Uncategorized(cs)| ==> Layout(cs)[i].CategoryBlock? && Layout(cs)[i].channels != []
  {
    if i >= |Uncategorized(cs)| {
      NoEmptyCategoryRendered(cs, CategoryIds(cs), i - |Uncategorized(cs)|);
    }
  }

  // ---------------------------------------------------------------------
  // The partition: with distinct category ids, every text channel ends up
  // in exactly one list.

  function Texts(cs: seq<Channel>): seq<Channel>
  {
    if cs == [] then []
    else Texts(cs[..|cs| - 1]) + (if IsText(cs[|cs| - 1]) then [cs[|cs| - 1]] else [])
  }

  /** The channels of the lists of `ids`, together. */
  ghost function AllMembers(cs: seq<Channel>, ids: seq<string>): multiset<Channel>
  {
    if ids == [] then multiset{}
    else AllMembers(cs, ids[..|ids| - 1]) + multiset(Members(cs, ids[|ids| - 1]))
  }

  ghost predicate DistinctCategories(cs: seq<Channel>)
  {
    forall a, b | 0 <= a < b < |cs| && IsCategory(cs[a]) && IsCategory(cs[b]) :: cs[a].id != cs[b].id
  }

  /** Changing the list of one id `p` by appending `extra`, and no other
      list, changes the union by `extra` when `p` is listed once. */
  lemma {:induction false} AllMembersChange(cs: seq<Channel>, cs': seq<Channel>, ids: seq<string>, p: string, extra: seq<Channel>)
    requires forall a, b | 0 <= a < b < |ids| :: ids[a] != ids[b]
    requires forall k | k in ids && k != p :: Members(cs', k) == Members(cs, k)
    requires p in ids ==> Members(cs', p) == Members(cs, p) + extra
    ensures AllMembers(cs', ids) == AllMembers(cs, ids) + (if p in ids then multiset(extra) else multiset{})
    decreases |ids|
  {
    if ids != [] {
      var init, k := ids[..|ids| - 1], ids[|ids| - 1];
      forall a | 0 <= a < |init| ensures init[a] != k && init[a] in ids {
        assert init[a] == ids[a];
      }
      assert k !in init;
      AllMembersChange(cs, cs', init, p, extra);
      assert p in ids <==> p in init || p == k;
    }
  }

  lemma {:induction false} Partition(cs: seq<Channel>)
    requires DistinctCategories(cs)
    ensures multiset(Texts(cs)) == multiset(Uncategorized(cs)) + AllMembers(cs, CategoryIds(cs))
  {
    if cs != [] {
      var init, c := cs[..|cs| - 1], cs[|cs| - 1];
      assert cs == init + [c];
      forall a, b | 0 <= a < b < |init| && IsCategory(init[a]) && IsCategory(init[b])
        ensures init[a].id != init[b].id
      {
        assert init[a] == cs[a] && init[b] == cs[b];
      }
      Partition(init);
      CategoryIdsDistinct(init);
      if IsCategory(c) {
        forall i | 0 <= i < |init| && IsCategory(init[i]) ensures init[i].id != c.id {
          assert init[i] == cs[i];
        }
        NoEarlierCategory(init, c.id);
        CategoryIdsAreCategories(init, c.id);
        NewCategoryStep(init, c);
      } else if Attached(init, c) {
        AllMembersChange(init, cs, CategoryIds(init), c.parentId.value, [c]);
      } else {
        AllMembersChange(init, cs, CategoryIds(init), "", []);
      }
    }
  }

  /** A category whose id is new adds an empty list and nothing else. */
  lemma NewCategoryStep(init: seq<Channel>, c: Channel)
    requires IsCategory(c) && c.id !in CategoryIds(init)
    requires forall a, b | 0 <= a < b < |CategoryIds(init)| :: CategoryIds(init)[a] != CategoryIds(init)[b]
    ensures Texts(init + [c]) == Texts(init) && Uncategorized(init + [c]) == Uncategorized(init)
    ensures AllMembers(init + [c], CategoryIds(init + [c])) == AllMembers(init, CategoryIds(init))
  {
    var cs := init + [c];
    var ids := CategoryIds(init);
    assert cs[..|cs| - 1] == init;
    AllMembersChange(init, cs, ids, c.id, []);
    assert CategoryIds(cs) == ids + [c.id];
    assert (ids + [c.id])[..|ids|] == ids;
  }

  /** No category with id `k` in the input: nothing is stored under `k`. */
  lemma {:induction false} NoEarlierCategory(cs: seq<Channel>, k: string)
    requires forall i | 0 <= i < |cs| && IsCategory(cs[i]) :: cs[i].id != k
    ensures LastCategory(cs, k) == None
  {
    if cs != [] {
      NoEarlierCategory(cs[..|cs| - 1], k);
    }
  }

  // ---------------------------------------------------------------------
  // Messages.

  datatype Message = Message(id: string, timestamp: int, content: string)

  /** What the message pane shows: the "no messages" placeholder, or the
      messages from top to bottom. */
  datatype MessageView = Placeholder | Shown(messages: seq<Message>)

  /** `s` back to front. */
  function Reversed<T>(s: seq<T>): (r: seq<T>)
    ensures |r| == |s|
  {
    if s == [] then [] else [s[|s| - 1]] + Reversed(s[..|s| - 1])
  }

  lemma {:induction false} ReversedIndex<T>(s: seq<T>)
    ensures forall i :: 0 <= i < |s| ==> Reversed(s)[i] == s[|s| - 1 - i]
  {
    if s != [] {
      var init := s[..|s| - 1];
      ReversedIndex(init);
      forall i | 0 <= i < |s| ensures Reversed(s)[i] == s[|s| - 1 - i] {
        if i > 0 {
          assert Reversed(s)[i] == Reversed(init)[i - 1];
        }
      }
    }
  }

  /** Reversing twice gives the list back. */
  lemma ReversedTwice<T>(s: seq<T>)
    ensures Reversed(Reversed(s)) == s
  {
    ReversedIndex(s);
    ReversedIndex(Reversed(s));
  }

  /** `messages.reverse()`: swaps from both ends towards the middle. */
  method ReverseInPlace<T>(a: array<T>)
    modifies a
    ensures a[..] == Reversed(old(a[..]))
  {
    ghost var s := a[..];
    var lo, hi := 0, a.Length - 1;
    while lo < hi
      invariant 0 <= lo && hi == a.Length - 1 - lo && lo <= a.Length
      invariant forall i :: 0 <= i < lo ==> a[i] == s[a.Length - 1 - i] && a[a.Length - 1 - i] == s[i]
      invariant forall i :: lo <= i <= hi ==> a[i] == s[i]
    {
      a[lo], a[hi] := a[hi], a[lo];
      lo, hi := lo + 1, hi - 1;
    }
    ReversedIndex(s);
  }

  /** `displayMessages(messages)`: an empty list shows the placeholder;
      otherwise the list is reversed in place and shown. */
  method DisplayMessages(messages: array<Message>) returns (view: MessageView)
    modifies messages
    ensures messages.Length == 0 ==> view == Placeholder
    ensures messages.Length > 0 ==>
      messages[..] == Reversed(old(messages[..])) && view == Shown(messages[..])
  {
    if messages.Length == 0 {
      return Placeholder;
    }
    ReverseInPlace(messages);
    view := Shown(messages[..]);
  }

  predicate NewestFirst(ms: seq<Message>)
  {
    forall i, j | 0 <= i < j < |ms| :: ms[i].timestamp >= ms[j].timestamp
  }

  predicate OldestFirst(ms: seq<Message>)
  {
    forall i, j | 0 <= i < j < |ms| :: ms[i].timestamp <= ms[j].timestamp
  }

  /** The API returns the newest message first; after the reversal the
      oldest is at the top. */
  lemma ReversalShowsOldestFirst(ms: seq<Message>)
    requires NewestFirst(ms)
    ensures OldestFirst(Reversed(ms))
  {
    ReversedIndex(ms);
  }
}
