/**
 * Messages, chats and the list of saved chats shown in the side panel,
 * with the list operations the chat handlers apply to it: save (replace
 * in place or prepend), find, remove, move to the front and rename.
 */
module ChatHistory {
  import opened Wrappers
  import opened Decimal
  import Recommendations

  datatype Sender = User | Bot

  /** What a message shows: plain text, or a price prediction with its recommendation. */
  datatype Body =
    | Text(text: string)
    | Prediction(predictedPrice: real, data: Recommendations.Recommendation)

  datatype Message = Message(id: string, sender: Sender, body: Body)

  datatype Chat = Chat(id: string, title: string, messages: seq<Message>)

  /** The ids of the saved chats, in list order. */
  function Ids(h: seq<Chat>): (ids: seq<string>)
    ensures |ids| == |h|
    ensures forall i :: 0 <= i < |h| ==> ids[i] == h[i].id
  {
    seq(|h|, i requires 0 <= i < |h| => h[i].id)
  }

  /** No two saved chats share an id. */
  predicate UniqueIds(h: seq<Chat>) {
    forall i, j :: 0 <= i < j < |h| ==> h[i].id != h[j].id
  }

  // ---------------------------------------------------------------------
  // Save: the upsert both handleNewChat and handleLoadChat perform
  // ---------------------------------------------------------------------

  /** Replaces every chat whose id is `c.id` by `c`. */
  function Replace(h: seq<Chat>, c: Chat): (r: seq<Chat>)
    ensures |r| == |h|
    ensures forall i :: 0 <= i < |h| ==> r[i] == (if h[i].id == c.id then c else h[i])
  {
    seq(|h|, i requires 0 <= i < |h| => if h[i].id == c.id then c else h[i])
  }

  /** The chat `c` saved into `h`: in place of the chat with its id, or at the front. */
  function Save(h: seq<Chat>, c: Chat): (r: seq<Chat>)
    ensures Ids(r) == (if c.id in Ids(h) then Ids(h) else [c.id] + Ids(h))
    ensures UniqueIds(h) ==> UniqueIds(r)
  {
    if c.id in Ids(h) then
      var r := Replace(h, c);
      assert Ids(r) == Ids(h);
      r
    else
      var r := [c] + h;
      assert Ids(r) == [c.id] + Ids(h);
      assert UniqueIds(h) ==> UniqueIds(r) by {
        if UniqueIds(h) {
          forall i, j | 0 <= i < j < |r| ensures r[i].id != r[j].id {
            if i == 0 { assert Ids(h)[j - 1] == r[j].id; }
          }
        }
      }
      r
  }

  /** After saving, `c` is in the list, every other chat is kept, and nothing else appears. */
  lemma SaveMembers(h: seq<Chat>, c: Chat)
    ensures c in Save(h, c)
    ensures forall d :: d in h && d.id != c.id ==> d in Save(h, c)
    ensures forall d :: d in Save(h, c) ==> d == c || (d in h && d.id != c.id)
  {
    var r := Save(h, c);
    if c.id in Ids(h) {
      assert c in r by {
        var i :| 0 <= i < |h| && Ids(h)[i] == c.id;
        assert r[i] == c;
      }
      forall d | d in h && d.id != c.id ensures d in r {
        var i :| 0 <= i < |h| && h[i] == d;
        assert r[i] == d;
      }
    }
  }

  /** Saving twice in a row is the same as saving once. */
  lemma SaveIdempotent(h: seq<Chat>, c: Chat)
    ensures Save(Save(h, c), c) == Save(h, c)
  {
    var once := Save(h, c);
    SaveMembers(h, c);
    assert c.id in Ids(once) by {
      var i :| 0 <= i < |once| && once[i] == c;
      assert Ids(once)[i] == c.id;
    }
    var twice := Replace(once, c);
    assert |twice| == |once|;
    forall i | 0 <= i < |once| ensures twice[i] == once[i] {
      if once[i].id == c.id {
        assert once[i] in once;
        assert once[i] == c;
      }
    }
  }

  // ---------------------------------------------------------------------
  // Find, Remove, MoveToFront, Rename
  // ---------------------------------------------------------------------

  /** Array.prototype.find on the id: the first chat with id `id`, if any. */
  function Find(h: seq<Chat>, id: string): (r: Option<Chat>)
    ensures r.Some? <==> id in Ids(h)
    ensures r.Some? ==> r.value in h && r.value.id == id
  {
    if h == [] then None
    else if h[0].id == id then Some(h[0])
    else
      var r := Find(h[1..], id);
      assert Ids(h) == [h[0].id] + Ids(h[1..]);
      r
  }

  /** With unique ids the chat found is the only one carrying that id. */
  lemma FindUnique(h: seq<Chat>, id: string, d: Chat)
    requires UniqueIds(h) && d in h && d.id == id
    ensures Find(h, id) == Some(d)
  {
    var c := Find(h, id).value;
    var i :| 0 <= i < |h| && h[i] == c;
    var j :| 0 <= j < |h| && h[j] == d;
    assert i == j;
  }

  /** Array.prototype.filter keeping the chats whose id is not `id`. */
  function Remove(h: seq<Chat>, id: string): (r: seq<Chat>)
    ensures |r| <= |h|
  {
    if h == [] then []
    else
      var rest := Remove(h[1..], id);
      if h[0].id == id then rest else [h[0]] + rest
  }

  /** Exactly the chats without id `id` remain; with no such chat nothing changes. */
  lemma {:induction false} RemoveMembers(h: seq<Chat>, id: string)
    ensures forall d :: d in Remove(h, id) <==> d in h && d.id != id
    ensures (forall d :: d in h ==> d.id != id) ==> Remove(h, id) == h
    decreases |h|
  {
    if h != [] {
      RemoveMembers(h[1..], id);
      assert h == [h[0]] + h[1..];
    }
  }

  /** Removing from a concatenation removes from each part: the kept chats stay in order. */
  lemma {:induction false} RemoveAppend(a: seq<Chat>, b: seq<Chat>, id: string)
    ensures Remove(a + b, id) == Remove(a, id) + Remove(b, id)
    decreases |a|
  {
    if a == [] {
      assert a + b == b;
    } else {
      assert (a + b)[1..] == a[1..] + b;
      RemoveAppend(a[1..], b, id);
    }
  }

  /** Removing keeps the relative order of the chats that stay. */
  lemma RemoveKeepsOrder(h: seq<Chat>, id: string, i: nat, j: nat)
    requires i < j < |h| && h[i].id != id && h[j].id != id
    ensures exists p, q :: 0 <= p < q < |Remove(h, id)| && Remove(h, id)[p] == h[i] && Remove(h, id)[q] == h[j]
  {
    var a, mid, b := h[..i], h[i + 1..j], h[j + 1..];
    assert h == a + ([h[i]] + (mid + ([h[j]] + b)));
    RemoveAppend(a, [h[i]] + (mid + ([h[j]] + b)), id);
    RemoveAppend([h[i]], mid + ([h[j]] + b), id);
    RemoveAppend(mid, [h[j]] + b, id);
    RemoveAppend([h[j]], b, id);
    var r := Remove(h, id);
    var p := |Remove(a, id)|;
    var q := p + 1 + |Remove(mid, id)|;
    assert r == Remove(a, id) + ([h[i]] + (Remove(mid, id) + ([h[j]] + Remove(b, id))));
    assert r[p] == h[i] && r[q] == h[j];
  }

  /** Removing keeps ids unique. */
  lemma {:induction false} RemoveUnique(h: seq<Chat>, id: string)
    requires UniqueIds(h)
    ensures UniqueIds(Remove(h, id))
    decreases |h|
  {
    if h != [] {
      RemoveUnique(h[1..], id);
      RemoveMembers(h[1..], id);
      var rest := Remove(h[1..], id);
      if h[0].id != id {
        var r := [h[0]] + rest;
        forall i, j | 0 <= i < j < |r| ensures r[i].id != r[j].id {
          if i == 0 {
            assert r[j] in rest;
            var k :| 0 <= k < |h[1..]| && h[1..][k] == r[j];
            assert h[k + 1] == r[j];
          }
        }
      }
    }
  }

  /** The chat `c` at the front, followed by every other chat in its old order. */
  function MoveToFront(h: seq<Chat>, c: Chat): (r: seq<Chat>)
    ensures |r| >= 1 && r[0] == c
    ensures r[1..] == Remove(h, c.id)
    ensures forall i :: 0 < i < |r| ==> r[i].id != c.id
    ensures UniqueIds(h) ==> UniqueIds(r)
  {
    var rest := Remove(h, c.id);
    var r := [c] + rest;
    assert forall i :: 0 < i < |r| ==> r[i].id != c.id by {
      RemoveMembers(h, c.id);
      forall i | 0 < i < |r| ensures r[i].id != c.id {
        assert r[i] in rest;
      }
    }
    assert UniqueIds(h) ==> UniqueIds(r) by {
      if UniqueIds(h) {
        RemoveUnique(h, c.id);
      }
    }
    r
  }

  /** Moving `c` to the front keeps every other chat and adds nothing but `c`. */
  lemma MoveToFrontMembers(h: seq<Chat>, c: Chat)
    ensures forall d :: d in h && d.id != c.id ==> d in MoveToFront(h, c)
    ensures forall d :: d in MoveToFront(h, c) ==> d == c || (d in h && d.id != c.id)
  {
    RemoveMembers(h, c.id);
  }

  /** Every chat with id `id` renamed to `title`. */
  function Rename(h: seq<Chat>, id: string, title: string): (r: seq<Chat>)
    ensures Ids(r) == Ids(h)
    ensures forall i :: 0 <= i < |h| ==> r[i].messages == h[i].messages
    ensures forall i :: 0 <= i < |h| && h[i].id == id ==> r[i].title == title
    ensures forall i :: 0 <= i < |h| && h[i].id != id ==> r[i] == h[i]
  {
    var r := seq(|h|, i requires 0 <= i < |h| => if h[i].id == id then h[i].(title := title) else h[i]);
    assert Ids(r) == Ids(h);
    r
  }

  /** After a rename, finding the chat gives it back under its new title. */
  lemma FindRenamed(h: seq<Chat>, id: string, title: string)
    requires id in Ids(h)
    ensures Find(Rename(h, id, title), id) == Some(Find(h, id).value.(title := title))
  {
    var r := Rename(h, id, title);
    FindPointwise(h, r, id, title);
  }

  lemma {:induction false} FindPointwise(h: seq<Chat>, r: seq<Chat>, id: string, title: string)
    requires |r| == |h|
    requires forall i :: 0 <= i < |h| ==> r[i] == (if h[i].id == id then h[i].(title := title) else h[i])
    requires id in Ids(h)
    ensures Find(r, id) == Some(Find(h, id).value.(title := title))
    decreases |h|
  {
    if h[0].id != id {
      assert Ids(h) == [h[0].id] + Ids(h[1..]);
      FindPointwise(h[1..], r[1..], id, title);
    }
  }

  // ---------------------------------------------------------------------
  // Stashing the open chat
  // ---------------------------------------------------------------------

  /** The open chat saved into the history, when it holds more than the greeting. */
  function Stash(h: seq<Chat>, id: string, title: string, msgs: seq<Message>): (r: seq<Chat>)
    ensures |msgs| <= 1 ==> r == h
    ensures |msgs| > 1 ==> r == Save(h, Chat(id, title, msgs))
    ensures |msgs| > 1 ==> Chat(id, title, msgs) in r && id in Ids(r)
    ensures UniqueIds(h) ==> UniqueIds(r)
  {
    if |msgs| > 1 then
      var r := Save(h, Chat(id, title, msgs));
      SaveMembers(h, Chat(id, title, msgs));
      assert id in Ids(r) by {
        var i :| 0 <= i < |r| && r[i] == Chat(id, title, msgs);
        assert Ids(r)[i] == id;
      }
      r
    else h
  }

  /** A stashed chat with unique ids is found again exactly as it was stashed. */
  lemma StashThenFind(h: seq<Chat>, id: string, title: string, msgs: seq<Message>)
    requires UniqueIds(h) && |msgs| > 1
    ensures Find(Stash(h, id, title, msgs), id) == Some(Chat(id, title, msgs))
  {
    FindUnique(Stash(h, id, title, msgs), id, Chat(id, title, msgs));
  }

  /**
   * Deleting the open chat from the list and then stashing it (what the
   * delete handler does through the new-chat handler) puts it back at the
   * front whenever it holds more than the greeting.
   */
  lemma DeletedOpenChatReturns(h: seq<Chat>, id: string, title: string, msgs: seq<Message>)
    requires |msgs| > 1
    ensures Stash(Remove(h, id), id, title, msgs) == [Chat(id, title, msgs)] + Remove(h, id)
  {
    RemoveMembers(h, id);
    var rest := Remove(h, id);
    assert id !in Ids(rest) by {
      forall i | 0 <= i < |rest| ensures Ids(rest)[i] != id {
        assert rest[i] in rest;
      }
    }
  }

  /**
   * Reloading the open chat after it was already saved once brings back the
   * saved version: the messages added since are dropped from the history.
   */
  lemma ReloadOpenChat(h: seq<Chat>, id: string, title: string, msgs: seq<Message>, saved: Chat)
    requires UniqueIds(h) && saved in h && saved.id == id
    ensures MoveToFront(Stash(h, id, title, msgs), Find(h, id).value)[0] == saved
    ensures Chat(id, title, msgs) != saved ==> Chat(id, title, msgs) !in MoveToFront(Stash(h, id, title, msgs), Find(h, id).value)
  {
    FindUnique(h, id, saved);
    var stashed := Stash(h, id, title, msgs);
    RemoveMembers(stashed, id);
  }

  // ---------------------------------------------------------------------
  // Chat ids
  // ---------------------------------------------------------------------

  /** The id of the chat opened as number `n`. */
  function ChatId(n: nat): (id: string)
    ensures |id| > 5 && id[..5] == "chat-"
  {
    "chat-" + NatToString(n)
  }

  /** Different counters give different chat ids. */
  lemma ChatIdInjective(a: nat, b: nat)
    requires ChatId(a) == ChatId(b)
    ensures a == b
  {
    assert ChatId(a)[5..] == NatToString(a);
    assert ChatId(b)[5..] == NatToString(b);
    NatToStringInjective(a, b);
  }

  /** `id` is one of the chat ids handed out while the counter was below `counter`. */
  predicate Issued(id: string, counter: nat) {
    exists k :: 1 <= k < counter && id == ChatId(k)
  }

  /** The id the counter hands out next belongs to no chat handed out before. */
  lemma NextIdIsFresh(h: seq<Chat>, counter: nat)
    requires forall c :: c in h ==> Issued(c.id, counter)
    ensures ChatId(counter) !in Ids(h)
  {
    if ChatId(counter) in Ids(h) {
      var i :| 0 <= i < |h| && Ids(h)[i] == ChatId(counter);
      assert h[i] in h;
      var k :| 1 <= k < counter && h[i].id == ChatId(k);
      ChatIdInjective(k, counter);
      assert false;
    }
  }

  /** Handing out one more id keeps every earlier id handed out. */
  lemma IssuedGrows(id: string, counter: nat)
    requires Issued(id, counter)
    ensures Issued(id, counter + 1)
  {
    var k :| 1 <= k < counter && id == ChatId(k);
    assert 1 <= k < counter + 1 && id == ChatId(k);
  }

  // ---------------------------------------------------------------------
  // The history invariant
  // ---------------------------------------------------------------------

  /**
   * The saved chats have unique ids handed out below `counter`, and each
   * holds more than the greeting.
   */
  predicate Kept(h: seq<Chat>, counter: nat) {
    && UniqueIds(h)
    && (forall c :: c in h ==> |c.messages| > 1 && Issued(c.id, counter))
  }

  /** Stashing an open chat with an issued id keeps the invariant, also after the counter moves on. */
  lemma StashKept(h: seq<Chat>, id: string, title: string, msgs: seq<Message>, counter: nat)
    requires Kept(h, counter) && Issued(id, counter)
    ensures Kept(Stash(h, id, title, msgs), counter)
    ensures Kept(Stash(h, id, title, msgs), counter + 1)
    ensures ChatId(counter) !in Ids(Stash(h, id, title, msgs))
  {
    var r := Stash(h, id, title, msgs);
    if |msgs| > 1 {
      SaveMembers(h, Chat(id, title, msgs));
    }
    forall c | c in r ensures |c.messages| > 1 && Issued(c.id, counter) && Issued(c.id, counter + 1) {
      IssuedGrows(c.id, counter);
    }
    NextIdIsFresh(r, counter);
  }

  lemma RemoveKept(h: seq<Chat>, id: string, counter: nat)
    requires Kept(h, counter)
    ensures Kept(Remove(h, id), counter)
  {
    RemoveUnique(h, id);
    RemoveMembers(h, id);
  }

  lemma MoveToFrontKept(h: seq<Chat>, c: Chat, counter: nat)
    requires Kept(h, counter) && |c.messages| > 1 && Issued(c.id, counter)
    ensures Kept(MoveToFront(h, c), counter)
  {
    MoveToFrontMembers(h, c);
  }

  lemma RenameKept(h: seq<Chat>, id: string, title: string, counter: nat)
    requires Kept(h, counter)
    ensures Kept(Rename(h, id, title), counter)
  {
    var r := Rename(h, id, title);
    forall c | c in r ensures |c.messages| > 1 && Issued(c.id, counter) {
      var i :| 0 <= i < |r| && r[i] == c;
      assert Ids(r)[i] == Ids(h)[i];
      assert h[i] in h;
    }
    forall i, j | 0 <= i < j < |r| ensures r[i].id != r[j].id {
      assert Ids(r)[i] == Ids(h)[i];
      assert Ids(r)[j] == Ids(h)[j];
    }
  }

  /** Loading a saved chat after stashing the open one keeps the invariant. */
  lemma LoadKept(h: seq<Chat>, id: string, title: string, msgs: seq<Message>, c: Chat, counter: nat)
    requires Kept(h, counter) && Issued(id, counter) && c in h
    ensures Kept(MoveToFront(Stash(h, id, title, msgs), c), counter)
    ensures |c.messages| > 1 && Issued(c.id, counter)
  {
    StashKept(h, id, title, msgs, counter);
    MoveToFrontKept(Stash(h, id, title, msgs), c, counter);
  }
}
