/**
 * The notifications dropdown (src/components/notifications/NotificationsDropdown.tsx):
 * the `classNames` joiner, the icon chosen for a notification type, and
 * what the dropdown shows for a list of notifications.
 */
module Notifications {
  import opened Wrappers

  /** The non-empty strings of `xs`, in order: `filter(Boolean)` on strings. */
  function Kept(xs: seq<string>): (r: seq<string>)
    ensures forall x :: x in r <==> x in xs && x != ""
    ensures |r| <= |xs|
  {
    if xs == [] then []
    else if xs[0] != "" then [xs[0]] + Kept(xs[1..])
    else Kept(xs[1..])
  }

  /** `join(' ')`. */
  function Join(ws: seq<string>): string {
    if ws == [] then ""
    else if |ws| == 1 then ws[0]
    else ws[0] + " " + Join(ws[1..])
  }

  /** `classNames(...classes)`: the non-empty class strings joined by single spaces. */
  function ClassNames(classes: seq<string>): string {
    Join(Kept(classes))
  }

  /** `s.split(' ')`: the pieces between spaces; '' gives one empty piece. */
  function Words(s: string): seq<string> {
    Split(s, "")
  }

  /** The pieces of `piece + s`, where `piece` is the piece read so far. */
  function Split(s: string, piece: string): (ws: seq<string>)
    ensures |ws| >= 1
  {
    if s == [] then [piece]
    else if s[0] == ' ' then [piece] + Split(s[1..], "")
    else Split(s[1..], piece + [s[0]])
  }

  /** A single class name: non-empty, with no space inside. */
  predicate IsClass(w: string) {
    w != "" && ' ' !in w
  }

  /** A space-free string ends the piece being read, alone or before a space and more. */
  lemma {:induction false} SplitSpaceFree(w: string, t: string, piece: string)
    requires ' ' !in w
    ensures Split(w, piece) == [piece + w]
    ensures Split(w + " " + t, piece) == [piece + w] + Split(t, "")
  {
    if w == [] {
      assert piece + w == piece;
      assert w + " " + t == [' '] + t;
      assert ([' '] + t)[1..] == t;
    } else {
      assert ' ' !in w[1..];
      SplitSpaceFree(w[1..], t, piece + [w[0]]);
      assert (w + " " + t)[1..] == w[1..] + " " + t;
      assert piece + [w[0]] + w[1..] == piece + w;
    }
  }

  /** A class name is a single piece, and in front of a space it is the first piece. */
  lemma WordsOfClass(w: string, t: string)
    requires ' ' !in w
    ensures Words(w) == [w]
    ensures Words(w + " " + t) == [w] + Words(t)
  {
    SplitSpaceFree(w, t, "");
    assert "" + w == w;
  }

  /** Splitting the joined class names at spaces gives back the classes: `classNames` loses nothing. */
  lemma {:induction false} WordsOfClassNames(ws: seq<string>)
    requires ws != [] && forall w :: w in ws ==> IsClass(w)
    ensures Words(Join(ws)) == ws
  {
    assert ws[0] in ws;
    if |ws| > 1 {
      WordsOfClass(ws[0], Join(ws[1..]));
      WordsOfClassNames(ws[1..]);
    } else {
      WordsOfClass(ws[0], "");
    }
  }

  /** Empty strings anywhere in the arguments leave the result as it is. */
  lemma {:induction false} EmptyClassesIgnored(xs: seq<string>, ys: seq<string>)
    ensures ClassNames(xs + [""] + ys) == ClassNames(xs + ys)
  {
    assert xs + [""] + ys == xs + ([""] + ys);
    KeptAppend(xs, [""] + ys);
    KeptAppend(xs, ys);
    assert ([""] + ys)[1..] == ys;
  }

  /** `filter` distributes over concatenation. */
  lemma {:induction false} KeptAppend(xs: seq<string>, ys: seq<string>)
    ensures Kept(xs + ys) == Kept(xs) + Kept(ys)
  {
    if xs == [] {
      assert xs + ys == ys;
    } else {
      assert (xs + ys)[1..] == xs[1..] + ys;
      KeptAppend(xs[1..], ys);
    }
  }

  datatype Glyph = CheckCircle | ExclamationCircle | InformationCircle

  /** An icon: its glyph and its class string. */
  datatype Icon = Icon(glyph: Glyph, className: string)

  const SuccessIcon := Icon(CheckCircle, "h-5 w-5 text-green-500")
  const ErrorIcon := Icon(ExclamationCircle, "h-5 w-5 text-red-500")
  const WarningIcon := Icon(ExclamationCircle, "h-5 w-5 text-yellow-500")
  const InfoIcon := Icon(InformationCircle, "h-5 w-5 text-blue-500")

  /** `getIcon(type)`: its own icon for 'success', 'error' and 'warning', the info icon for every other type. */
  function GetIcon(notificationType: string): (icon: Icon)
    ensures icon == InfoIcon <==> notificationType !in ["success", "error", "warning"]
    ensures icon.glyph == CheckCircle <==> notificationType == "success"
    ensures icon.glyph == ExclamationCircle <==> notificationType == "error" || notificationType == "warning"
  {
    match notificationType
    case "success" => SuccessIcon
    case "error" => ErrorIcon
    case "warning" => WarningIcon
    case _ => InfoIcon
  }

  /** The three named types get three different icons; error and warning share a glyph but not a colour. */
  lemma IconsTellTypesApart(a: string, b: string)
    requires a in ["success", "error", "warning"] && b in ["success", "error", "warning"] && a != b
    ensures GetIcon(a) != GetIcon(b)
  {
    assert "h-5 w-5 text-red-500"[13] != "h-5 w-5 text-yellow-500"[13];
  }

  /** A notification from the store. */
  datatype Notification = Notification(
    id: string, notificationType: string, title: string, message: string, read: bool, createdAt: string)

  /** What the store is asked to do. */
  datatype Action = MarkAsRead(id: string) | MarkAllAsRead

  /** One rendered row: its class string, its icon, its texts, whether it shows the unread dot, and its click action. */
  datatype Row = Row(className: string, icon: Icon, title: string, message: string, unreadDot: bool, onClick: Action)

  datatype Body = NoNotifications | Rows(rows: seq<Row>)

  /** The dropdown: the "Mark all as read" button, when offered, and the body. */
  datatype Dropdown = Dropdown(markAll: Option<Action>, body: Body)

  const RowClass := "px-4 py-3 border-b border-gray-200 last:border-b-0"

  /** The row for one notification; `active` is the menu item's hover state. */
  function RenderRow(n: Notification, active: bool): Row {
    Row(ClassNames([if active then "bg-gray-50" else "", if n.read then "opacity-75" else "", RowClass]),
      GetIcon(n.notificationType), n.title, n.message, !n.read, MarkAsRead(n.id))
  }

  /** The dropdown for a list of notifications, with the item at `hovered` (if any) active. */
  function Render(ns: seq<Notification>, hovered: Option<nat>): (d: Dropdown)
    ensures d.markAll.Some? <==> |ns| > 0
    ensures d.markAll.Some? ==> d.markAll.value == MarkAllAsRead
    ensures d.body == NoNotifications <==> |ns| == 0
  {
    Dropdown(if |ns| > 0 then Some(MarkAllAsRead) else None,
      if |ns| == 0 then NoNotifications
      else Rows(seq(|ns|, i requires 0 <= i < |ns| => RenderRow(ns[i], hovered == Some(i)))))
  }

  /**
   * One row per notification in the list's order: its own texts and icon,
   * the unread dot exactly when it is unread, and a click that marks that
   * notification (by its id) as read.
   */
  lemma RowsFollowNotifications(ns: seq<Notification>, hovered: Option<nat>, i: int)
    requires 0 <= i < |ns|
    ensures var d := Render(ns, hovered);
      d.body.Rows? && |d.body.rows| == |ns|
      && d.body.rows[i].title == ns[i].title && d.body.rows[i].message == ns[i].message
      && d.body.rows[i].icon == GetIcon(ns[i].notificationType)
      && (d.body.rows[i].unreadDot <==> !ns[i].read)
      && d.body.rows[i].onClick == MarkAsRead(ns[i].id)
  {
  }

  /**
   * A row's class string splits into the highlight exactly when the row is
   * active, then the dimming class exactly when the notification is read,
   * then the fixed row classes.
   */
  lemma RowClassWords(n: Notification, active: bool)
    ensures Words(RenderRow(n, active).className) ==
      (if active then ["bg-gray-50"] else []) + (if n.read then ["opacity-75"] else []) + Words(RowClass)
  {
    OptionalClassesWords(active, "bg-gray-50", n.read, "opacity-75", RowClass);
  }

  /** `classNames(c1 ? x : '', c2 ? y : '', z)` splits into x when c1, y when c2, then the pieces of z. */
  lemma OptionalClassesWords(c1: bool, x: string, c2: bool, y: string, z: string)
    requires IsClass(x) && IsClass(y) && z != ""
    ensures Words(ClassNames([if c1 then x else "", if c2 then y else "", z])) ==
      (if c1 then [x] else []) + (if c2 then [y] else []) + Words(z)
  {
    var optX, optY := (if c1 then [x] else []), (if c2 then [y] else []);
    var parts := [if c1 then x else "", if c2 then y else "", z];
    var tail := [if c2 then y else ""] + [z];
    assert parts == [if c1 then x else ""] + tail;
    var kz := optY + [z];
    assert Kept(tail) == kz by {
      KeptOptional(c2, y, [z]);
      assert Kept([z]) == [z] by { assert [z][1..] == []; }
    }
    assert Kept(parts) == optX + kz by {
      KeptOptional(c1, x, tail);
    }
    assert Words(Join(kz)) == optY + Words(z) by {
      if c2 {
        JoinedWordsCons(y, [z]);
      }
    }
    assert Words(Join(optX + kz)) == optX + (optY + Words(z)) by {
      if c1 {
        JoinedWordsCons(x, kz);
      }
    }
    assert ClassNames(parts) == Join(optX + kz);
    assert optX + (optY + Words(z)) == optX + optY + Words(z);
  }

  /** An optional class `c ? x : ''` keeps x exactly when c holds. */
  lemma KeptOptional(c: bool, x: string, rest: seq<string>)
    requires x != ""
    ensures Kept([if c then x else ""] + rest) == (if c then [x] else []) + Kept(rest)
  {
    assert ([if c then x else ""] + rest)[1..] == rest;
  }

  /** A class in front of a non-empty list is the first piece of the joined string. */
  lemma JoinedWordsCons(x: string, ws: seq<string>)
    requires IsClass(x) && ws != []
    ensures Words(Join([x] + ws)) == [x] + Words(Join(ws))
  {
    assert ([x] + ws)[1..] == ws;
    WordsOfClass(x, Join(ws));
  }
}
