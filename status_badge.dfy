/** The status badge: the text it shows and the colour classes it picks. */
module StatusBadge {
  import opened Wrappers
  import opened Text

  /** The text shown: the status lower-cased, with its first "_" turned into a space. */
  function DisplayText(status: string): string
  {
    ReplaceFirst(ToLower(status), "_", " ")
  }

  /** `status` has no "_" before index `i`. */
  predicate NoUnderscoreBefore(status: string, i: int)
  {
    forall j :: 0 <= j < i && j < |status| ==> status[j] != '_'
  }

  lemma UnderscoreOccurs(status: string, j: int)
    ensures OccursAt(ToLower(status), "_", j) <==> 0 <= j < |status| && status[j] == '_'
  {
    var t := ToLower(status);
    if 0 <= j < |status| {
      assert t[j..j + 1] == [t[j]];
    }
  }

  /** Character by character: the first "_" becomes a space, every other
      character is lower-cased; a later "_" is kept. */
  lemma DisplayTextChars(status: string)
    ensures |DisplayText(status)| == |status|
    ensures forall i :: 0 <= i < |status| ==>
              DisplayText(status)[i] == (if status[i] == '_' && NoUnderscoreBefore(status, i) then ' ' else LowerChar(status[i]))
  {
    var t := ToLower(status);
    match IndexOf(t, "_")
    case None =>
      forall j | 0 <= j < |status| ensures status[j] != '_' {
        UnderscoreOccurs(status, j);
      }
    case Some(k) =>
      UnderscoreOccurs(status, k);
      forall j | 0 <= j < k ensures status[j] != '_' {
        UnderscoreOccurs(status, j);
      }
      assert Substitute(" ", "_", t[..k], t[k + 1..]) == " ";
      var r := DisplayText(status);
      assert r == t[..k] + " " + t[k + 1..];
      forall i | 0 <= i < |status|
        ensures r[i] == (if status[i] == '_' && NoUnderscoreBefore(status, i) then ' ' else LowerChar(status[i]))
      {
        if i > k {
          assert !NoUnderscoreBefore(status, i);
        }
      }
  }

  lemma DisplayTextExample()
    ensures DisplayText("a_b_c") == "a b_c"
  {
    DisplayTextChars("a_b_c");
    assert NoUnderscoreBefore("a_b_c", 1);
  }

  // ---- colour buckets ----

  datatype Colour = Emerald | Blue | Amber | Red | Slate | Grey

  const EmeraldStatuses: seq<string> := ["completed", "approved", "present", "high"]
  const BlueStatuses: seq<string> := ["in_progress", "medium"]
  const AmberStatuses: seq<string> := ["pending", "sick", "casual", "vacation"]
  const RedStatuses: seq<string> := ["rejected", "absent", "critical"]
  const SlateStatuses: seq<string> := ["low"]

  /** The bucket of the raw (not lower-cased) status. The lists are checked
      in order, but since they are pairwise disjoint each status is in the
      bucket whose list holds it, whatever the order. */
  function ColourOf(status: string): (c: Colour)
    ensures c == Emerald <==> status in EmeraldStatuses
    ensures c == Blue <==> status in BlueStatuses
    ensures c == Amber <==> status in AmberStatuses
    ensures c == Red <==> status in RedStatuses
    ensures c == Slate <==> status in SlateStatuses
    ensures c == Grey <==> status !in EmeraldStatuses + BlueStatuses + AmberStatuses + RedStatuses + SlateStatuses
  {
    if status in EmeraldStatuses then Emerald
    else if status in BlueStatuses then Blue
    else if status in AmberStatuses then Amber
    else if status in RedStatuses then Red
    else if status in SlateStatuses then Slate
    else Grey
  }

  /** The case of the status matters, and statuses outside the lists are grey. */
  lemma ColourExamples()
    ensures ColourOf("Completed") == Grey
    ensures ColourOf("half_day") == Grey && ColourOf("leave") == Grey
    ensures ColourOf("completed") == Emerald
  {
  }

  /** The colour name inside a bucket's classes. */
  function ColourName(c: Colour): string
  {
    match c
    case Emerald => "emerald"
    case Blue => "blue"
    case Amber => "amber"
    case Red => "red"
    case Slate => "slate"
    case Grey => "gray"
  }

  /** The solid class of a bucket, e.g. "bg-blue-100 text-blue-800 border-blue-200". */
  function SolidClass(c: Colour): string
  {
    var n := ColourName(c);
    "bg-" + n + "-100 text-" + n + "-800 border-" + n + "-200"
  }

  const EmeraldOutline: string := "bg-transparent text-emerald-600 border-emerald-600 border"
  const BlueOutline: string := "bg-transparent text-blue-600 border-blue-600 border"
  const AmberOutline: string := "bg-transparent text-amber-600 border-amber-600 border"
  const RedOutline: string := "bg-transparent text-red-600 border-red-600 border"
  const SlateOutline: string := "bg-transparent text-slate-600 border-slate-600 border"

  /** The outline variant, chosen by searching the solid class for a colour name. */
  function OutlineOf(colorClass: string): string
  {
    if Includes(colorClass, "emerald") then EmeraldOutline
    else if Includes(colorClass, "blue") then BlueOutline
    else if Includes(colorClass, "amber") then AmberOutline
    else if Includes(colorClass, "red") then RedOutline
    else SlateOutline
  }

  datatype Variant = Outline | Solid

  /** The class of the badge. */
  function BadgeClass(status: string, variant: Variant): string
  {
    if variant == Outline then OutlineOf(SolidClass(ColourOf(status))) else SolidClass(ColourOf(status))
  }

  // ---- which colour names a class includes ----

  /** `p` occurs nowhere in `s`. */
  ghost predicate Lacks(s: string, p: string)
  {
    forall j :: !OccursAt(s, p, j)
  }

  lemma LacksIff(s: string, p: string)
    ensures Lacks(s, p) <==> !Includes(s, p)
  {
    IncludesIff(s, p);
  }

  /** A string without one of the pattern's characters lacks the pattern. */
  lemma LacksChar(s: string, p: string, k: nat)
    requires k < |p| && p[k] !in s
    ensures Lacks(s, p)
  {
    forall j ensures !OccursAt(s, p, j) {
      if 0 <= j && j + |p| <= |s| {
        assert s[j..j + |p|][k] == s[j + k];
      }
    }
  }

  /** An occurrence cannot straddle a character that the pattern lacks. */
  lemma LacksSplit(a: string, c: char, b: string, p: string)
    requires c !in p && Lacks(a, p) && Lacks(b, p)
    ensures Lacks(a + [c] + b, p)
  {
    forall j: int ensures !OccursAt(a + [c] + b, p, j) {
      SplitAt(a, c, b, p, j);
    }
  }

  lemma SplitAt(a: string, c: char, b: string, p: string, j: int)
    requires c !in p && Lacks(a, p) && Lacks(b, p)
    ensures !OccursAt(a + [c] + b, p, j)
  {
    var s := a + [c] + b;
    if 0 <= j && j + |p| <= |s| {
      if j + |p| <= |a| {
        assert s[j..j + |p|] == a[j..j + |p|];
        assert !OccursAt(a, p, j);
      } else if j > |a| {
        assert s[j..j + |p|] == b[j - |a| - 1..j - |a| - 1 + |p|];
        assert !OccursAt(b, p, j - |a| - 1);
      } else {
        assert s[|a|] == c;
        assert s[j..j + |p|][|a| - j] == c;
      }
    }
  }

  lemma BorderLacksRed()
    ensures Lacks("border", "red")
  {
    var s := "border";
    assert s[0..3] == "bor" && s[1..4] == "ord" && s[2..5] == "rde" && s[3..6] == "der";
  }

  lemma BorderPartLacksRed()
    ensures Lacks("800 border", "red")
  {
    LacksChar("800", "red", 0);
    BorderLacksRed();
    LacksSplit("800", ' ', "border", "red");
    assert "800" + [' '] + "border" == "800 border";
  }

  /** "red" is not inside a class whose colour name lacks "d": the class is
      built one dash at a time from pieces that each lack "red". */
  lemma NoRedAround(n: string)
    requires 'd' !in n
    ensures Lacks("bg-" + n + "-100 text-" + n + "-800 border-" + n + "-200", "red")
  {
    LacksChar(n, "red", 2);
    LacksChar("bg", "red", 0);
    LacksChar("100 text", "red", 0);
    LacksChar("200", "red", 0);
    BorderPartLacksRed();
    var s1 := "bg" + ['-'] + n;
    LacksSplit("bg", '-', n, "red");
    var s2 := s1 + ['-'] + "100 text";
    LacksSplit(s1, '-', "100 text", "red");
    var s3 := s2 + ['-'] + n;
    LacksSplit(s2, '-', n, "red");
    var s4 := s3 + ['-'] + "800 border";
    LacksSplit(s3, '-', "800 border", "red");
    var s5 := s4 + ['-'] + n;
    LacksSplit(s4, '-', n, "red");
    var s6 := s5 + ['-'] + "200";
    LacksSplit(s5, '-', "200", "red");
    DashJoin(n, s6);
  }

  /** The class written with its dashes as separate characters. */
  lemma DashJoin(n: string, s6: string)
    requires s6 == "bg" + ['-'] + n + ['-'] + "100 text" + ['-'] + n + ['-'] + "800 border" + ['-'] + n + ['-'] + "200"
    ensures s6 == "bg-" + n + "-100 text-" + n + "-800 border-" + n + "-200"
  {
    assert "bg" + ['-'] == "bg-";
    assert ['-'] + "100 text" + ['-'] == "-100 text-";
    assert ['-'] + "800 border" + ['-'] == "-800 border-";
    assert ['-'] + "200" == "-200";
  }

  /** Only the red bucket's class includes "red". */
  lemma NoRed(c: Colour)
    requires c == Slate || c == Grey
    ensures !Includes(SolidClass(c), "red")
  {
    NoRedAround(ColourName(c));
    LacksIff(SolidClass(c), "red");
  }

  /** A bucket's class includes its own colour name. */
  lemma OwnName(c: Colour)
    ensures Includes(SolidClass(c), ColourName(c))
  {
    NameInClass(ColourName(c));
  }

  /** The colour name starts at index 3 of the class. */
  lemma NameInClass(n: string)
    ensures Includes("bg-" + n + "-100 text-" + n + "-800 border-" + n + "-200", n)
  {
    var s := "bg-" + n + "-100 text-" + n + "-800 border-" + n + "-200";
    IncludesIff(s, n);
    assert s[3..3 + |n|] == n;
    assert OccursAt(s, n, 3);
  }

  /** A character absent from the colour name is absent from the class. */
  lemma AbsentChar(c: Colour, ch: char)
    requires ch !in ColourName(c) && ch !in "bg-" && ch !in "-100 text-" && ch !in "-800 border-" && ch !in "-200"
    ensures ch !in SolidClass(c)
  {
    AbsentFromClass(ColourName(c), ch);
  }

  lemma AbsentFromClass(n: string, ch: char)
    requires ch !in n && ch !in "bg-" && ch !in "-100 text-" && ch !in "-800 border-" && ch !in "-200"
    ensures ch !in "bg-" + n + "-100 text-" + n + "-800 border-" + n + "-200"
  {
  }

  lemma EmeraldOutlined()
    ensures OutlineOf(SolidClass(Emerald)) == EmeraldOutline
  {
    OwnName(Emerald);
  }

  lemma BlueOutlined()
    ensures OutlineOf(SolidClass(Blue)) == BlueOutline
  {
    var s := SolidClass(Blue);
    AbsentChar(Blue, 'm');
    LacksChar(s, "emerald", 1);
    OwnName(Blue);
    PicksBlue(s);
  }

  lemma AmberOutlined()
    ensures OutlineOf(SolidClass(Amber)) == AmberOutline
  {
    var s := SolidClass(Amber);
    AbsentChar(Amber, 'l');
    LacksChar(s, "emerald", 5);
    LacksChar(s, "blue", 1);
    OwnName(Amber);
    PicksAmber(s);
  }

  lemma RedLacksEmerald()
    ensures !Includes(SolidClass(Red), "emerald")
  {
    AbsentChar(Red, 'm');
    LacksChar(SolidClass(Red), "emerald", 1);
    LacksIff(SolidClass(Red), "emerald");
  }

  lemma RedLacksBlue()
    ensures !Includes(SolidClass(Red), "blue")
  {
    AbsentChar(Red, 'l');
    LacksChar(SolidClass(Red), "blue", 1);
    LacksIff(SolidClass(Red), "blue");
  }

  lemma RedLacksAmber()
    ensures !Includes(SolidClass(Red), "amber")
  {
    AbsentChar(Red, 'a');
    LacksChar(SolidClass(Red), "amber", 0);
    LacksIff(SolidClass(Red), "amber");
  }

  lemma RedOutlined()
    ensures OutlineOf(SolidClass(Red)) == RedOutline
  {
    var s := SolidClass(Red);
    AbsentChar(Red, 'm');
    AbsentChar(Red, 'l');
    AbsentChar(Red, 'a');
    LacksChar(s, "emerald", 1);
    LacksChar(s, "blue", 1);
    LacksChar(s, "amber", 0);
    OwnName(Red);
    PicksRed(s);
  }

  lemma SlateOutlined()
    ensures OutlineOf(SolidClass(Slate)) == SlateOutline
  {
    var s := SolidClass(Slate);
    AbsentChar(Slate, 'm');
    AbsentChar(Slate, 'u');
    LacksChar(s, "emerald", 1);
    LacksChar(s, "blue", 2);
    LacksChar(s, "amber", 1);
    NoRedAround(ColourName(Slate));
    PicksSlate(s);
  }

  lemma GreyOutlined()
    ensures OutlineOf(SolidClass(Grey)) == SlateOutline
  {
    var s := SolidClass(Grey);
    AbsentChar(Grey, 'm');
    AbsentChar(Grey, 'u');
    LacksChar(s, "emerald", 1);
    LacksChar(s, "blue", 2);
    LacksChar(s, "amber", 1);
    NoRedAround(ColourName(Grey));
    PicksSlate(s);
  }

  // The branch of `OutlineOf` a class takes, from the names it lacks and includes.

  lemma PicksBlue(s: string)
    requires Lacks(s, "emerald") && Includes(s, "blue")
    ensures OutlineOf(s) == BlueOutline
  {
    LacksIff(s, "emerald");
  }

  lemma PicksAmber(s: string)
    requires Lacks(s, "emerald") && Lacks(s, "blue") && Includes(s, "amber")
    ensures OutlineOf(s) == AmberOutline
  {
    LacksIff(s, "emerald");
    LacksIff(s, "blue");
  }

  lemma PicksRed(s: string)
    requires Lacks(s, "emerald") && Lacks(s, "blue") && Lacks(s, "amber") && Includes(s, "red")
    ensures OutlineOf(s) == RedOutline
  {
    LacksIff(s, "emerald");
    LacksIff(s, "blue");
    LacksIff(s, "amber");
  }

  lemma PicksSlate(s: string)
    requires Lacks(s, "emerald") && Lacks(s, "blue") && Lacks(s, "amber") && Lacks(s, "red")
    ensures OutlineOf(s) == SlateOutline
  {
    LacksIff(s, "emerald");
    LacksIff(s, "blue");
    LacksIff(s, "amber");
    LacksIff(s, "red");
  }

  /** Emerald, blue, amber and red map to their own outline; slate and grey both map to the slate outline. */
  lemma OutlineMapping(c: Colour)
    ensures OutlineOf(SolidClass(c)) == match c
      case Emerald => EmeraldOutline
      case Blue => BlueOutline
      case Amber => AmberOutline
      case Red => RedOutline
      case _ => SlateOutline
  {
    match c
    case Emerald => EmeraldOutlined();
    case Blue => BlueOutlined();
    case Amber => AmberOutlined();
    case Red => RedOutlined();
    case Slate => SlateOutlined();
    case Grey => GreyOutlined();
  }

  /** `SolidClass(c)` spells out the class written for a bucket with the colour name `n`. */
  lemma SolidSpelled(c: Colour, n: string)
    requires ColourName(c) == n
    ensures SolidClass(c) == "bg-" + n + "-100 text-" + n + "-800 border-" + n + "-200"
  {
  }

  /** The emerald solid class, joined one piece at a time. */
  lemma SolidEmerald()
    ensures SolidClass(Emerald) == "bg-emerald-100 text-emerald-800 border-emerald-200"
  {
    SolidSpelled(Emerald, "emerald");
    assert "bg-" + "emerald" == "bg-emerald";
    assert "bg-emerald" + "-100 text-" == "bg-emerald-100 text-";
    assert "bg-emerald-100 text-" + "emerald" == "bg-emerald-100 text-emerald";
    assert "bg-emerald-100 text-emerald" + "-800 border-" == "bg-emerald-100 text-emerald-800 border-";
    assert "bg-emerald-100 text-emerald-800 border-" + "emerald" == "bg-emerald-100 text-emerald-800 border-emerald";
  }

  /** The blue solid class, joined one piece at a time. */
  lemma SolidBlue()
    ensures SolidClass(Blue) == "bg-blue-100 text-blue-800 border-blue-200"
  {
    SolidSpelled(Blue, "blue");
    assert "bg-" + "blue" == "bg-blue";
    assert "bg-blue" + "-100 text-" == "bg-blue-100 text-";
    assert "bg-blue-100 text-" + "blue" == "bg-blue-100 text-blue";
    assert "bg-blue-100 text-blue" + "-800 border-" == "bg-blue-100 text-blue-800 border-";
    assert "bg-blue-100 text-blue-800 border-" + "blue" == "bg-blue-100 text-blue-800 border-blue";
  }

  /** The amber solid class, joined one piece at a time. */
  lemma SolidAmber()
    ensures SolidClass(Amber) == "bg-amber-100 text-amber-800 border-amber-200"
  {
    SolidSpelled(Amber, "amber");
    assert "bg-" + "amber" == "bg-amber";
    assert "bg-amber" + "-100 text-" == "bg-amber-100 text-";
    assert "bg-amber-100 text-" + "amber" == "bg-amber-100 text-amber";
    assert "bg-amber-100 text-amber" + "-800 border-" == "bg-amber-100 text-amber-800 border-";
    assert "bg-amber-100 text-amber-800 border-" + "amber" == "bg-amber-100 text-amber-800 border-amber";
  }

  /** The red solid class, joined one piece at a time. */
  lemma SolidRed()
    ensures SolidClass(Red) == "bg-red-100 text-red-800 border-red-200"
  {
    SolidSpelled(Red, "red");
    assert "bg-" + "red" == "bg-red";
    assert "bg-red" + "-100 text-" == "bg-red-100 text-";
    assert "bg-red-100 text-" + "red" == "bg-red-100 text-red";
    assert "bg-red-100 text-red" + "-800 border-" == "bg-red-100 text-red-800 border-";
    assert "bg-red-100 text-red-800 border-" + "red" == "bg-red-100 text-red-800 border-red";
  }

  /** The slate solid class, joined one piece at a time. */
  lemma SolidSlate()
    ensures SolidClass(Slate) == "bg-slate-100 text-slate-800 border-slate-200"
  {
    SolidSpelled(Slate, "slate");
    assert "bg-" + "slate" == "bg-slate";
    assert "bg-slate" + "-100 text-" == "bg-slate-100 text-";
    assert "bg-slate-100 text-" + "slate" == "bg-slate-100 text-slate";
    assert "bg-slate-100 text-slate" + "-800 border-" == "bg-slate-100 text-slate-800 border-";
    assert "bg-slate-100 text-slate-800 border-" + "slate" == "bg-slate-100 text-slate-800 border-slate";
  }

  /** The grey solid class, joined one piece at a time. */
  lemma SolidGrey()
    ensures SolidClass(Grey) == "bg-gray-100 text-gray-800 border-gray-200"
  {
    SolidSpelled(Grey, "gray");
    assert "bg-" + "gray" == "bg-gray";
    assert "bg-gray" + "-100 text-" == "bg-gray-100 text-";
    assert "bg-gray-100 text-" + "gray" == "bg-gray-100 text-gray";
    assert "bg-gray-100 text-gray" + "-800 border-" == "bg-gray-100 text-gray-800 border-";
    assert "bg-gray-100 text-gray-800 border-" + "gray" == "bg-gray-100 text-gray-800 border-gray";
  }

  /** The badge a status gets in either variant: every status of a list
      wears that list's classes, and any other status is grey when solid
      and slate when outlined. */
  lemma BadgeClasses(status: string)
    ensures status in EmeraldStatuses ==>
              BadgeClass(status, Solid) == "bg-emerald-100 text-emerald-800 border-emerald-200"
              && BadgeClass(status, Outline) == EmeraldOutline
    ensures status in BlueStatuses ==>
              BadgeClass(status, Solid) == "bg-blue-100 text-blue-800 border-blue-200"
              && BadgeClass(status, Outline) == BlueOutline
    ensures status in AmberStatuses ==>
              BadgeClass(status, Solid) == "bg-amber-100 text-amber-800 border-amber-200"
              && BadgeClass(status, Outline) == AmberOutline
    ensures status in RedStatuses ==>
              BadgeClass(status, Solid) == "bg-red-100 text-red-800 border-red-200"
              && BadgeClass(status, Outline) == RedOutline
    ensures status in SlateStatuses ==>
              BadgeClass(status, Solid) == "bg-slate-100 text-slate-800 border-slate-200"
              && BadgeClass(status, Outline) == SlateOutline
    ensures status !in EmeraldStatuses + BlueStatuses + AmberStatuses + RedStatuses + SlateStatuses ==>
              BadgeClass(status, Solid) == "bg-gray-100 text-gray-800 border-gray-200"
              && BadgeClass(status, Outline) == SlateOutline
  {
    SolidEmerald(); SolidBlue(); SolidAmber(); SolidRed(); SolidSlate(); SolidGrey();
    OutlineMapping(ColourOf(status));
  }
}
