/** The helpers behind a warden's card: initials, avatar colour, role label, hostel line and
    the buttons it offers. */
module WardenCard {
  import opened JsText

  // ---------------------------------------------------------------- initials

  /** `parts.map(n => n[0]).join('')`: an empty part's `n[0]` is undefined and joins as ''. */
  function Heads(parts: seq<string>): string
  {
    if parts == [] then ""
    else (if parts[0] == "" then "" else [parts[0][0]]) + Heads(parts[1..])
  }

  /** The characters of `s` that begin a word: not a space, and first or just after a space
      (`atStart` says whether the position before `s` counts as a space). */
  function WordStarts(s: string, atStart: bool): string
  {
    if s == [] then ""
    else (if atStart && s[0] != ' ' then [s[0]] else "") + WordStarts(s[1..], s[0] == ' ')
  }

  /** The heads of the space-separated parts are the word starts; inside a word, the first part's
      head is not a word start. */
  lemma {:induction false} HeadsOfSplit(s: string)
    ensures Heads(Split(s, ' ')) == WordStarts(s, true)
    ensures Heads(Split(s, ' ')[1..]) == WordStarts(s, false)
  {
    if s != [] {
      var rest := Split(s[1..], ' ');
      HeadsOfSplit(s[1..]);
      if s[0] == ' ' {
        assert Split(s, ' ') == [""] + rest;
        assert Split(s, ' ')[1..] == rest;
      } else {
        assert Split(s, ' ') == [[s[0]] + rest[0]] + rest[1..];
        assert Split(s, ' ')[1..] == rest[1..];
      }
    }
  }

  /** `name.split(' ').map(n => n[0]).join('').toUpperCase().slice(0, 2)` */
  function Initials(name: string): string
  {
    var all := ToUpper(Heads(Split(name, ' ')));
    if |all| <= 2 then all else all[..2]
  }

  /** The initials are the first two word starts of the name, upper-cased. */
  lemma InitialsSpec(name: string)
    ensures var w := WordStarts(name, true);
      Initials(name) == ToUpper(if |w| <= 2 then w else w[..2])
      && |Initials(name)| <= 2
  {
    HeadsOfSplit(name);
    var w := WordStarts(name, true);
    if |w| > 2 {
      assert ToUpper(w)[..2] == ToUpper(w[..2]);
    }
  }

  /** Leading and repeated spaces contribute nothing, and a third word is cut off: " a  b c" gives "AB". */
  lemma InitialsExample()
    ensures Initials(" a  b c") == "AB"
  {
    InitialsSpec(" a  b c");
    WordStartsExample();
    assert "abc"[..2] == "ab";
    assert ToUpper("ab") == "AB";
  }

  /** The word starts of " a  b c" are "abc". */
  lemma WordStartsExample()
    ensures WordStarts(" a  b c", true) == "abc"
  {
    assert WordStarts("c", true) == "c";
    assert WordStarts(" c", false) == "c" by { assert " c"[1..] == "c"; }
    assert WordStarts("b c", true) == "bc" by { assert "b c"[1..] == " c"; }
    assert WordStarts(" b c", true) == "bc" by { assert " b c"[1..] == "b c"; }
    assert WordStarts("  b c", false) == "bc" by { assert "  b c"[1..] == " b c"; }
    assert WordStarts("a  b c", true) == "abc" by { assert "a  b c"[1..] == "  b c"; }
    assert " a  b c"[1..] == "a  b c";
  }

  // ---------------------------------------------------------------- avatar colour

  const AvatarBgs: seq<string> := [
    "bg-slate-100 text-slate-600",
    "bg-zinc-100 text-zinc-600",
    "bg-stone-100 text-stone-600",
    "bg-neutral-100 text-neutral-600",
    "bg-gray-100 text-gray-600"]

  /** `id.charCodeAt(0) % avatarBgs.length`; None for the NaN an empty id gives. */
  function AvatarIndex(id: string): Option<int>
  {
    if id == [] then None else Some(id[0] as int % |AvatarBgs|)
  }

  /** `avatarBgs[...]`; None is `undefined`. */
  function AvatarBg(id: string): Option<string>
  {
    match AvatarIndex(id)
    case Some(i) => if 0 <= i < |AvatarBgs| then Some(AvatarBgs[i]) else None
    case None => None
  }

  /** A non-empty id always indexes one of the five colours, chosen by its first character alone. */
  lemma AvatarIndexInRange(id: string)
    ensures AvatarIndex(id).Some? <==> id != []
    ensures AvatarIndex(id).Some? ==> 0 <= AvatarIndex(id).value < 5
    ensures id != [] ==> AvatarBg(id) == Some(AvatarBgs[id[0] as int % 5])
    ensures forall other: string :: id != [] && other != [] && other[0] == id[0] ==> AvatarBg(other) == AvatarBg(id)
  {
  }

  // ---------------------------------------------------------------- role label

  /** `roleLabels[role] ?? role` */
  function RoleLabel(role: string): string
  {
    if role == "senior_warden" then "Senior Warden"
    else if role == "warden" then "Asst. Warden"
    else role
  }

  /** The two known roles get their labels; any other role string is shown as it is. */
  lemma RoleLabelFallback(role: string)
    ensures role == "senior_warden" ==> RoleLabel(role) == "Senior Warden"
    ensures role == "warden" ==> RoleLabel(role) == "Asst. Warden"
    ensures role != "senior_warden" && role != "warden" ==> RoleLabel(role) == role
  {
  }

  // ---------------------------------------------------------------- hostel line

  function StripHostelPrefix(h: string): string
  {
    ReplaceFirst(h, "HOSTEL-", "")
  }

  function StripAll(ids: seq<string>): seq<string>
  {
    seq(|ids|, i requires 0 <= i < |ids| => StripHostelPrefix(ids[i]))
  }

  /** `hostel_id.map(h => h.replace('HOSTEL-', '')).join(', ') || '—'` */
  function HostelText(ids: seq<string>): string
  {
    var t := Join(StripAll(ids), ", ");
    if t == "" then "\U{2014}" else t
  }

  /** An id that starts with `HOSTEL-` loses exactly that prefix. */
  lemma StripLeadingPrefix(h: string)
    requires "HOSTEL-" <= h
    ensures StripHostelPrefix(h) == h[7..]
  {
  }

  /** The dash appears exactly when there is no hostel, one whose id is empty once stripped, or a
      joined text that is itself a dash; any other non-empty text is shown as joined. */
  lemma HostelTextDash(ids: seq<string>)
    ensures HostelText(ids) == "\U{2014}" <==>
      ids == [] || (|ids| == 1 && StripHostelPrefix(ids[0]) == "") || Join(StripAll(ids), ", ") == "\U{2014}"
    ensures Join(StripAll(ids), ", ") != "" ==> HostelText(ids) == Join(StripAll(ids), ", ")
  {
    JoinEmpty(StripAll(ids), ", ");
  }

  /** Two prefixed ids read "A, B". */
  lemma HostelTextExample()
    ensures HostelText(["HOSTEL-A", "HOSTEL-B"]) == "A, B"
  {
    StripLeadingPrefix("HOSTEL-A");
    StripLeadingPrefix("HOSTEL-B");
    assert StripAll(["HOSTEL-A", "HOSTEL-B"]) == ["A", "B"];
  }

  // ---------------------------------------------------------------- actions

  datatype CardAction = Reactivate | EditAction | Remove

  function CardActions(active: bool): seq<CardAction>
  {
    if !active then [Reactivate] else [EditAction, Remove]
  }

  /** An inactive card offers only Reactivate; an active one exactly Edit and Remove. */
  lemma CardActionsChoice(active: bool)
    ensures Reactivate in CardActions(active) <==> !active
    ensures EditAction in CardActions(active) <==> active
    ensures Remove in CardActions(active) <==> active
    ensures |CardActions(active)| == (if active then 2 else 1)
  {
  }
}
