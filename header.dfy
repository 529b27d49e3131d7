/**
 * The page header shown to a signed-in user: a greeting, a badge with the
 * role's label and colour, and an avatar whose fallback text is the initials
 * of the user's name. Nothing is shown while nobody is signed in.
 */
module Header {
  import opened Wrappers
  import opened Schema
  import opened Text

  // -------------------------------------------------------------- initials

  /** `n[0]` inside `join("")`: the first character, or nothing for an empty word. */
  function FirstChar(w: string): (r: string)
    ensures |w| == 0 ==> r == ""
    ensures |w| > 0 ==> r == [w[0]]
  {
    if |w| == 0 then "" else [w[0]]
  }

  /** `ws.map(n => n[0])`. */
  function Heads(ws: seq<string>): (r: seq<string>)
    ensures |r| == |ws|
    ensures forall i :: 0 <= i < |ws| ==> r[i] == FirstChar(ws[i])
  {
    seq(|ws|, i requires 0 <= i < |ws| => FirstChar(ws[i]))
  }

  /** `name.split(" ").map(n => n[0]).join("")`: the avatar's fallback text. */
  function Initials(name: string): string {
    Join(Heads(Split(name, ' ')), "")
  }

  /**
   * Reference definition: the characters of `s` that start a word, where a
   * word starts at a non-space character that is first or follows a space.
   * `atStart` says whether the character before `s` was a space (or absent).
   */
  function WordStarts(s: string, atStart: bool): string
    decreases |s|
  {
    if |s| == 0 then ""
    else if s[0] == ' ' then WordStarts(s[1..], true)
    else (if atStart then [s[0]] else "") + WordStarts(s[1..], false)
  }

  /** The first characters of the words, one after the other. */
  function FirstChars(ws: seq<string>): string
    decreases |ws|
  {
    if |ws| == 0 then "" else FirstChar(ws[0]) + FirstChars(ws[1..])
  }

  /** Joining the heads with the empty separator concatenates them. */
  lemma {:induction false} JoinHeads(ws: seq<string>)
    ensures Join(Heads(ws), "") == FirstChars(ws)
    decreases |ws|
  {
    if |ws| == 1 {
      assert FirstChars(ws[1..]) == "";
    } else if |ws| > 1 {
      JoinHeads(ws[1..]);
      assert Heads(ws)[1..] == Heads(ws[1..]);
    }
  }

  /**
   * Splitting at spaces and taking first characters picks exactly the word
   * starts, both for the whole split and for the pieces after the first.
   */
  lemma {:induction false} SplitHeads(s: string)
    ensures FirstChars(Split(s, ' ')) == WordStarts(s, true)
    ensures FirstChars(Split(s, ' ')[1..]) == WordStarts(s, false)
    decreases |s|
  {
    if |s| == 0 {
      assert Split(s, ' ') == [""];
      assert FirstChars([""][1..]) == "";
    } else {
      var rest := Split(s[1..], ' ');
      SplitHeads(s[1..]);
      if s[0] == ' ' {
        var ws := [""] + rest;
        assert Split(s, ' ') == ws;
        assert ws[1..] == rest;
        assert FirstChars(ws) == FirstChar("") + FirstChars(rest);
      } else {
        var ws := [[s[0]] + rest[0]] + rest[1..];
        assert Split(s, ' ') == ws;
        assert ws[1..] == rest[1..];
        assert FirstChars(ws) == [s[0]] + FirstChars(rest[1..]);
      }
    }
  }

  /** The initials are the first character of every word of the name, in order. */
  lemma InitialsAreWordStarts(name: string)
    ensures Initials(name) == WordStarts(name, true)
  {
    JoinHeads(Split(name, ' '));
    SplitHeads(name);
  }

  /** Every initial is a non-space character of the name, and there are no more initials than characters. */
  lemma {:induction false} WordStartsFromName(s: string, atStart: bool)
    ensures |WordStarts(s, atStart)| <= |s|
    ensures forall c :: c in WordStarts(s, atStart) ==> c in s && c != ' '
    decreases |s|
  {
    if |s| > 0 {
      WordStartsFromName(s[1..], s[0] == ' ');
      assert forall c :: c in s[1..] ==> c in s;
    }
  }

  /** A name without spaces has its first character as its only initial. */
  lemma {:induction false} WordStartsNoSpaces(s: string)
    requires ' ' !in s
    ensures WordStarts(s, false) == ""
    decreases |s|
  {
    if |s| > 0 {
      assert ' ' !in s[1..] by {
        assert forall c :: c in s[1..] ==> c in s;
      }
      WordStartsNoSpaces(s[1..]);
    }
  }

  lemma SingleWordInitial(name: string)
    requires |name| > 0 && ' ' !in name
    ensures Initials(name) == [name[0]]
  {
    InitialsAreWordStarts(name);
    assert name[0] != ' ';
    WordStartsNoSpaces(name[1..]) by {
      assert forall c :: c in name[1..] ==> c in name;
    }
  }

  /** Two space-free words joined by a space give two initials. */
  lemma TwoWordInitials(first: string, last: string)
    requires |first| > 0 && ' ' !in first
    requires |last| > 0 && ' ' !in last
    ensures Initials(first + " " + last) == [first[0], last[0]]
  {
    InitialsAreWordStarts(first + " " + last);
    assert first + " " + last == first + (" " + last);
    assert first[0] in first && first[|first| - 1] in first && last[0] in last;
    WordStartsAppend(first, " " + last, true);
    WordStartsNoSpaces(first[1..]) by {
      assert forall c :: c in first[1..] ==> c in first;
    }
    assert WordStarts(first, true) == [first[0]] + WordStarts(first[1..], false);
    assert WordStarts(" " + last, false) == WordStarts(last, true) by {
      assert (" " + last)[1..] == last;
    }
    WordStartsNoSpaces(last[1..]) by {
      assert forall c :: c in last[1..] ==> c in last;
    }
    assert WordStarts(last, true) == [last[0]] + WordStarts(last[1..], false);
  }

  /** Word starts of a concatenation: the second part starts where the first left off. */
  lemma {:induction false} WordStartsAppend(a: string, b: string, atStart: bool)
    requires |a| > 0
    ensures WordStarts(a + b, atStart) == WordStarts(a, atStart) + WordStarts(b, a[|a| - 1] == ' ')
    decreases |a|
  {
    assert (a + b)[0] == a[0];
    assert (a + b)[1..] == a[1..] + b;
    if |a| > 1 {
      WordStartsAppend(a[1..], b, a[0] == ' ');
      assert a[1..][|a[1..]| - 1] == a[|a| - 1];
    } else {
      assert a[1..] == [];
      assert a[1..] + b == b;
    }
  }

  // ----------------------------------------------------------------- badge

  /** `user.role.replace("_", " ").toUpperCase()`: the badge text. */
  function RoleLabel(role: Role): string {
    DisplayLabel(RoleName(role))
  }

  lemma UpperAdmin()
    ensures ToUpper("admin") == "ADMIN"
  {
    assert forall i :: 0 <= i < 5 ==> ToUpper("admin")[i] == "ADMIN"[i];
  }

  lemma UpperEmployee()
    ensures ToUpper("employee") == "EMPLOYEE"
  {
    assert forall i :: 0 <= i < 8 ==> ToUpper("employee")[i] == "EMPLOYEE"[i];
  }

  lemma UpperProject()
    ensures ToUpper("project") == "PROJECT"
  {
    assert forall i :: 0 <= i < 7 ==> ToUpper("project")[i] == "PROJECT"[i];
  }

  lemma UpperOfficer()
    ensures ToUpper("officer") == "OFFICER"
  {
    assert forall i :: 0 <= i < 7 ==> ToUpper("officer")[i] == "OFFICER"[i];
  }

  /** The literal facts the project officer's label rests on. */
  lemma ProjectOfficerWords()
    ensures "project_officer" == "project" + "_" + "officer"
    ensures "PROJECT OFFICER" == "PROJECT" + " " + "OFFICER"
  {
  }

  /** The badge reads ADMIN, PROJECT OFFICER or EMPLOYEE. */
  lemma RoleLabels()
    ensures RoleLabel(Admin) == "ADMIN"
    ensures RoleLabel(ProjectOfficer) == "PROJECT OFFICER"
    ensures RoleLabel(Employee) == "EMPLOYEE"
  {
    assert '_' !in "admin" && '_' !in "employee";
    UpperAdmin();
    UpperEmployee();
    ProjectOfficerWords();
    DisplayLabelJoin("project", "officer");
    UpperProject();
    UpperOfficer();
  }

  /** No two roles share a badge text. */
  lemma RoleLabelsDistinct(a: Role, b: Role)
    ensures RoleLabel(a) == RoleLabel(b) ==> a == b
  {
    RoleLabels();
  }

  /** `roleColors[user.role]`: the badge's colour classes. */
  function RoleColor(role: Role): string {
    match role
    case Admin => "bg-red-100 text-red-800"
    case ProjectOfficer => "bg-blue-100 text-blue-800"
    case Employee => "bg-green-100 text-green-800"
  }

  /** Every role has its own colour. */
  lemma RoleColorsDistinct(a: Role, b: Role)
    ensures RoleColor(a) == RoleColor(b) ==> a == b
  {
    if a != b {
      // the fourth characters differ: r, b, g
      assert RoleColor(a)[3] != RoleColor(b)[3];
    }
  }

  // ---------------------------------------------------------------- header

  /** What the header renders for a signed-in user. */
  datatype View = View(greeting: string, badge: string, badgeClass: string, avatar: string)

  /** `if (!user) return null`, otherwise the greeting, the badge and the avatar. */
  function Render(user: Option<User>): (r: Option<View>)
    ensures r.None? <==> user.None?
    ensures r.Some? ==> r.value.greeting == "Welcome, " + user.value.name
    ensures r.Some? ==> r.value.badge == RoleLabel(user.value.role)
    ensures r.Some? ==> r.value.badgeClass == RoleColor(user.value.role)
    ensures r.Some? ==> r.value.avatar == WordStarts(user.value.name, true)
  {
    if user.None? then None
    else
      var u := user.value;
      InitialsAreWordStarts(u.name);
      Some(View("Welcome, " + u.name, RoleLabel(u.role), RoleColor(u.role), Initials(u.name)))
  }
}
