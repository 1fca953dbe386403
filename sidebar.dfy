/** The saved-chat list: one button per chat, titled with the first words of
    its problem, with the active chat highlighted. */
module Sidebar {
  import opened Wrappers

  function CountSpaces(s: string): nat
    decreases |s|
  {
    if s == [] then 0 else (if s[0] == ' ' then 1 else 0) + CountSpaces(s[1..])
  }

  lemma {:induction false} CountSpacesAppend(a: string, b: string)
    ensures CountSpaces(a + b) == CountSpaces(a) + CountSpaces(b)
    decreases |a|
  {
    if a == [] {
      assert a + b == b;
    } else {
      assert (a + b)[0] == a[0] && (a + b)[1..] == a[1..] + b;
      CountSpacesAppend(a[1..], b);
    }
  }

  lemma {:induction false} NoSpaceCount(s: string)
    requires ' ' !in s
    ensures CountSpaces(s) == 0
    decreases |s|
  {
    if s != [] {
      assert ' ' !in s[1..] by {
        forall i | 0 <= i < |s[1..]| ensures s[1..][i] != ' ' {
          assert s[1..][i] == s[i + 1];
        }
      }
      NoSpaceCount(s[1..]);
    }
  }

  /** `s.split(' ')`: the pieces between spaces, one more than there are spaces,
      none of them holding a space. */
  function Split(s: string): (r: seq<string>)
    ensures |r| == CountSpaces(s) + 1
    ensures forall i :: 0 <= i < |r| ==> ' ' !in r[i]
    decreases |s|
  {
    if s == [] then [""]
    else
      var rest := Split(s[1..]);
      if s[0] == ' ' then [""] + rest else [[s[0]] + rest[0]] + rest[1..]
  }

  /** `pieces.join(' ')`. */
  function Join(pieces: seq<string>): string
    decreases |pieces|
  {
    if |pieces| == 0 then ""
    else if |pieces| == 1 then pieces[0]
    else pieces[0] + " " + Join(pieces[1..])
  }

  /** Joining the pieces of a split gives back the string. */
  lemma {:induction false} JoinSplit(s: string)
    ensures Join(Split(s)) == s
    decreases |s|
  {
    if s != [] {
      JoinSplit(s[1..]);
      var rest := Split(s[1..]);
      if s[0] != ' ' {
        var r := Split(s);
        assert r[1..] == rest[1..];
        if |rest| > 1 {
          assert Join(rest) == rest[0] + " " + Join(rest[1..]);
        }
      }
    }
  }

  /** Joining the first `k` pieces gives a prefix of joining them all. */
  lemma {:induction false} JoinPrefix(pieces: seq<string>, k: nat)
    requires k <= |pieces|
    ensures Join(pieces[..k]) <= Join(pieces)
    decreases |pieces|
  {
    if k > 0 && |pieces| > 1 {
      if k == 1 {
        assert pieces[..k] == [pieces[0]];
      } else {
        JoinPrefix(pieces[1..], k - 1);
        assert pieces[..k][1..] == pieces[1..][..k - 1];
      }
    }
  }

  /** Joining pieces that hold no space puts exactly one space between each two. */
  lemma {:induction false} JoinSpaces(pieces: seq<string>)
    requires |pieces| >= 1
    requires forall i :: 0 <= i < |pieces| ==> ' ' !in pieces[i]
    ensures CountSpaces(Join(pieces)) == |pieces| - 1
    decreases |pieces|
  {
    NoSpaceCount(pieces[0]);
    if |pieces| > 1 {
      JoinSpaces(pieces[1..]);
      CountSpacesAppend(pieces[0], " ");
      CountSpacesAppend(pieces[0] + " ", Join(pieces[1..]));
    }
  }

  /** Joining two non-empty runs of pieces puts one space between their joins. */
  lemma {:induction false} JoinAppend(a: seq<string>, b: seq<string>)
    requires |a| >= 1 && |b| >= 1
    ensures Join(a + b) == Join(a) + " " + Join(b)
    decreases |a|
  {
    if |a| == 1 {
      assert (a + b)[1..] == b;
    } else {
      assert (a + b)[1..] == a[1..] + b;
      JoinAppend(a[1..], b);
    }
  }

  /** `problem.split(' ').slice(0, 5).join(' ')`. */
  function FirstWords(problem: string): string {
    var pieces := Split(problem);
    Join(pieces[..if |pieces| < 5 then |pieces| else 5])
  }

  /** The first five words are a prefix of the problem with at most four spaces;
      they are the whole problem when it has at most four spaces, and otherwise
      the part before the fifth space; they are empty only when the problem is. */
  lemma FirstWordsBounds(problem: string)
    ensures FirstWords(problem) <= problem
    ensures CountSpaces(FirstWords(problem)) <= 4
    ensures CountSpaces(problem) <= 4 ==> FirstWords(problem) == problem
    ensures CountSpaces(problem) > 4 ==>
      && CountSpaces(FirstWords(problem)) == 4
      && |FirstWords(problem)| < |problem|
      && problem[|FirstWords(problem)|] == ' '
    ensures FirstWords(problem) == "" <==> problem == ""
  {
    var pieces := Split(problem);
    var k := if |pieces| < 5 then |pieces| else 5;
    JoinSplit(problem);
    JoinPrefix(pieces, k);
    assert forall i :: 0 <= i < k ==> pieces[..k][i] == pieces[i];
    JoinSpaces(pieces[..k]);
    if CountSpaces(problem) <= 4 {
      assert pieces[..k] == pieces;
    }
    if CountSpaces(problem) > 4 {
      FirstWordsCut(problem);
    }
    if problem != "" && k > 1 {
      assert CountSpaces(FirstWords(problem)) > 0;
    }
  }

  /** A problem with more than four spaces is cut just before its fifth space. */
  lemma FirstWordsCut(problem: string)
    requires CountSpaces(problem) > 4
    ensures CountSpaces(FirstWords(problem)) == 4
    ensures |FirstWords(problem)| < |problem| && problem[|FirstWords(problem)|] == ' '
  {
    var pieces := Split(problem);
    var head, rest := pieces[..5], pieces[5..];
    assert pieces == head + rest;
    JoinSplit(problem);
    JoinAppend(head, rest);
    assert forall i :: 0 <= i < 5 ==> head[i] == pieces[i];
    JoinSpaces(head);
  }

  const UntitledChat := "Untitled Chat"

  /** `chat.problem?.split(' ').slice(0, 5).join(' ') || 'Untitled Chat'`. */
  function Title(problem: Option<string>): (r: string)
    ensures problem == None || problem == Some("") ==> r == UntitledChat
    ensures problem.Some? && problem.value != "" ==>
      r != "" && r <= problem.value && CountSpaces(r) <= 4
    ensures problem.Some? && problem.value != "" && CountSpaces(problem.value) <= 4 ==> r == problem.value
    ensures problem.Some? && CountSpaces(problem.value) > 4 ==>
      CountSpaces(r) == 4 && |r| < |problem.value| && problem.value[|r|] == ' '
  {
    if problem.None? then UntitledChat
    else
      FirstWordsBounds(problem.value);
      var words := FirstWords(problem.value);
      if words == "" then UntitledChat else words
  }

  datatype SavedChat = SavedChat(id: string, problem: Option<string>)

  /** A chat button: its title, whether it is highlighted, and the id its click
      passes to `onSelectChat`. */
  datatype ChatButton = ChatButton(title: string, highlighted: bool, selects: string)

  const PlaceholderText := "No saved chats yet."

  /** What the list area shows: the placeholder line, or the buttons. */
  datatype ChatList = Placeholder(text: string) | Buttons(buttons: seq<ChatButton>)

  function ChatButtons(savedChats: seq<SavedChat>, activeChatId: Option<string>): (r: seq<ChatButton>)
    ensures |r| == |savedChats|
    ensures forall i :: 0 <= i < |savedChats| ==>
      && r[i].title == Title(savedChats[i].problem)
      && (r[i].highlighted <==> activeChatId == Some(savedChats[i].id))
      && r[i].selects == savedChats[i].id
    decreases |savedChats|
  {
    if savedChats == [] then []
    else
      var chat := savedChats[0];
      [ChatButton(Title(chat.problem), activeChatId == Some(chat.id), chat.id)]
        + ChatButtons(savedChats[1..], activeChatId)
  }

  /** The list of saved chats, or the placeholder when there are none. */
  function ChatListView(savedChats: seq<SavedChat>, activeChatId: Option<string>): (r: ChatList)
    ensures r.Placeholder? <==> savedChats == []
    ensures r.Placeholder? ==> r.text == PlaceholderText
    ensures r.Buttons? ==> r.buttons == ChatButtons(savedChats, activeChatId)
  {
    if |savedChats| > 0 then Buttons(ChatButtons(savedChats, activeChatId)) else Placeholder(PlaceholderText)
  }
}
