/** The organizations page: the create dialog, whose slug is derived from
    the name as it is typed and normalised again when the form is sent. */
module AdminOrganizations {
  import opened Wrappers
  import opened Text
  import opened ClientView
  import Seqs

  // ---- `.replace(/\s+/g, "-")` ----

  /** Drops the white space at the front of a string. */
  function DropSpace(s: string): (r: string)
    ensures |r| <= |s|
    ensures r == s[|s| - |r|..]
    ensures r == [] || !IsJsWhitespace(r[0])
    ensures s != [] && IsJsWhitespace(s[0]) ==> |r| < |s|
    ensures forall i :: 0 <= i < |s| - |r| ==> IsJsWhitespace(s[i])
  {
    if s != [] && IsJsWhitespace(s[0]) then DropSpace(s[1..]) else s
  }

  /** A character that is neither white space nor a dash. */
  predicate Solid(c: char) { !IsJsWhitespace(c) && c != '-' }

  /** The solid characters of a string, in order. */
  function SolidPart(s: string): string
  {
    if s == [] then [] else (if Solid(s[0]) then [s[0]] else []) + SolidPart(s[1..])
  }

  lemma {:induction false} SolidPartDropSpace(s: string)
    ensures SolidPart(DropSpace(s)) == SolidPart(s)
  {
    if s != [] && IsJsWhitespace(s[0]) {
      SolidPartDropSpace(s[1..]);
    }
  }

  /** Every run of white space becomes one dash; the rest is kept. */
  function DashRuns(s: string): (r: string)
    ensures |r| <= |s|
    decreases |s|
  {
    if s == [] then []
    else if IsJsWhitespace(s[0]) then "-" + DashRuns(DropSpace(s))
    else [s[0]] + DashRuns(s[1..])
  }

  /** No white space is left, and the characters that are neither white
      space nor a dash are kept, in order. */
  lemma DashRunsSpec(s: string)
    ensures forall i :: 0 <= i < |DashRuns(s)| ==> !IsJsWhitespace(DashRuns(s)[i])
    ensures SolidPart(DashRuns(s)) == SolidPart(s)
  {
    DashRunsNoWhitespace(s);
    DashRunsSolid(s);
  }

  lemma {:induction false} DashRunsNoWhitespace(s: string)
    ensures forall c :: c in DashRuns(s) ==> !IsJsWhitespace(c)
    decreases |s|
  {
    if s != [] {
      if IsJsWhitespace(s[0]) {
        DashRunsNoWhitespace(DropSpace(s));
        assert DashRuns(s) == "-" + DashRuns(DropSpace(s));
      } else {
        DashRunsNoWhitespace(s[1..]);
        assert DashRuns(s) == [s[0]] + DashRuns(s[1..]);
      }
    }
  }

  lemma {:induction false} DashRunsSolid(s: string)
    ensures SolidPart(DashRuns(s)) == SolidPart(s)
    decreases |s|
  {
    if s != [] {
      if IsJsWhitespace(s[0]) {
        var rest := DashRuns(DropSpace(s));
        assert DashRuns(s) == "-" + rest;
        DashRunsSolid(DropSpace(s));
        SolidPartDropSpace(s[1..]);
        assert DropSpace(s) == DropSpace(s[1..]);
        assert ("-" + rest)[1..] == rest;
      } else {
        var rest := DashRuns(s[1..]);
        assert DashRuns(s) == [s[0]] + rest;
        DashRunsSolid(s[1..]);
        assert ([s[0]] + rest)[1..] == rest;
      }
    }
  }

  /** A string without white space is unchanged. */
  lemma {:induction false} DashRunsNoSpace(s: string)
    requires forall i :: 0 <= i < |s| ==> !IsJsWhitespace(s[i])
    ensures DashRuns(s) == s
  {
    if s != [] {
      assert forall i :: 0 <= i < |s[1..]| ==> s[1..][i] == s[i + 1];
      DashRunsNoSpace(s[1..]);
      DashRunsCons(s[0], s[1..]);
      assert s == [s[0]] + s[1..];
    }
  }

  /** A run of white space between two words becomes exactly one dash. */
  lemma RunBecomesOneDash(a: string, w: string, b: string)
    requires forall i :: 0 <= i < |a| ==> !IsJsWhitespace(a[i])
    requires w != [] && forall i :: 0 <= i < |w| ==> IsJsWhitespace(w[i])
    requires b == [] || !IsJsWhitespace(b[0])
    ensures DashRuns(a + w + b) == a + "-" + DashRuns(b)
  {
    assert a + w + b == a + (w + b);
    DashRunsPrefix(a, w + b);
    DashRunsRun(w, b);
    assert a + "-" + DashRuns(b) == a + ("-" + DashRuns(b));
  }

  /** A prefix without white space is kept as it is. */
  lemma {:induction false} DashRunsPrefix(a: string, rest: string)
    requires forall i :: 0 <= i < |a| ==> !IsJsWhitespace(a[i])
    ensures DashRuns(a + rest) == a + DashRuns(rest)
  {
    if a == [] {
      assert a + rest == rest;
    } else {
      assert forall i :: 0 <= i < |a[1..]| ==> a[1..][i] == a[i + 1];
      DashRunsPrefix(a[1..], rest);
      WordStep(a, rest, DashRuns(rest));
    }
  }

  /** One more character of the word in front. */
  lemma WordStep(a: string, rest: string, tail: string)
    requires a != [] && !IsJsWhitespace(a[0])
    requires DashRuns(a[1..] + rest) == a[1..] + tail
    ensures DashRuns(a + rest) == a + tail
  {
    var h, t := a[0], a[1..];
    var x, y := t + rest, t + tail;
    assert a == [h] + t;
    assert a + rest == [h] + x;
    DashRunsCons(h, x);
    assert a + tail == [h] + y;
  }

  /** A character other than white space is kept in front. */
  lemma DashRunsCons(c: char, t: string)
    requires !IsJsWhitespace(c)
    ensures DashRuns([c] + t) == [c] + DashRuns(t)
  {
    assert ([c] + t)[0] == c;
    assert ([c] + t)[1..] == t;
  }

  /** A leading run of white space becomes one dash. */
  lemma DashRunsRun(w: string, b: string)
    requires w != [] && forall i :: 0 <= i < |w| ==> IsJsWhitespace(w[i])
    requires b == [] || !IsJsWhitespace(b[0])
    ensures DashRuns(w + b) == "-" + DashRuns(b)
  {
    assert (w + b)[0] == w[0];
    DropRun(w, b);
  }

  lemma {:induction false} DropRun(w: string, b: string)
    requires forall i :: 0 <= i < |w| ==> IsJsWhitespace(w[i])
    requires b == [] || !IsJsWhitespace(b[0])
    ensures DropSpace(w + b) == b
  {
    if w != [] {
      assert (w + b)[0] == w[0];
      assert (w + b)[1..] == w[1..] + b;
      DropRun(w[1..], b);
    } else {
      assert w + b == b;
    }
  }

  // ---- `.replace(/[^a-z0-9-]/g, "")` ----

  predicate SlugChar(c: char) { 'a' <= c <= 'z' || '0' <= c <= '9' || c == '-' }

  // ---- the two slug normalisations ----

  /** The slug written into the form as the name is typed: lower case,
      white-space runs as dashes, and nothing outside `[a-z0-9-]`. */
  function Slugify(name: string): (slug: string)
    ensures forall i :: 0 <= i < |slug| ==> SlugChar(slug[i])
    ensures |slug| <= |name|
    ensures forall c :: c in slug <==> c in DashRuns(ToLower(name)) && SlugChar(c)
  {
    Seqs.Filter(DashRuns(ToLower(name)), SlugChar)
  }

  /** The slug sent to the server: lower case with white-space runs as
      dashes, but no character is removed. */
  function SubmitSlug(slug: string): (r: string)
    ensures forall i :: 0 <= i < |r| ==> !IsJsWhitespace(r[i]) && !IsUpper(r[i])
    ensures SolidPart(r) == SolidPart(ToLower(slug))
  {
    var d := DashRuns(ToLower(slug));
    DashRunsSpec(ToLower(slug));
    assert forall i :: 0 <= i < |d| ==> !IsUpper(d[i]) by {
      forall i | 0 <= i < |d| ensures !IsUpper(d[i]) {
        NoUpperStaysNoUpper(ToLower(slug), d[i]);
      }
    }
    d
  }

  /** Replacing runs introduces only dashes. */
  lemma NoUpperStaysNoUpper(s: string, c: char)
    requires forall i :: 0 <= i < |s| ==> !IsUpper(s[i])
    requires c in DashRuns(s)
    ensures !IsUpper(c)
  {
    DashRunsChars(s);
  }

  lemma {:induction false} DashRunsChars(s: string)
    ensures forall c :: c in DashRuns(s) ==> c == '-' || c in s
    decreases |s|
  {
    if s != [] {
      if IsJsWhitespace(s[0]) {
        DashRunsChars(DropSpace(s));
        assert forall c :: c in DropSpace(s) ==> c in s;
      } else {
        DashRunsChars(s[1..]);
      }
    }
  }

  /** A string of slug characters has no upper case and no white space. */
  lemma SlugIsFixed(slug: string)
    requires forall i :: 0 <= i < |slug| ==> SlugChar(slug[i])
    ensures ToLower(slug) == slug
    ensures DashRuns(slug) == slug
  {
    ToLowerNoUpper(slug);
    DashRunsNoSpace(slug);
  }

  /** Deriving the slug twice changes nothing. */
  lemma SlugifyIdempotent(name: string)
    ensures Slugify(Slugify(name)) == Slugify(name)
  {
    var s := Slugify(name);
    SlugIsFixed(s);
    FilterKeepsAll(s, SlugChar);
  }

  /** A derived slug that is sent unedited reaches the server unchanged. */
  lemma DerivedSlugSentUnchanged(name: string)
    ensures SubmitSlug(Slugify(name)) == Slugify(name)
  {
    SlugIsFixed(Slugify(name));
  }

  /** A hand-typed slug keeps characters the derived one removes: a `!`
      in the typed slug is sent, while a name never yields one. */
  lemma TypedSlugKeepsPunctuation(s: string)
    requires '!' in s
    ensures '!' in SubmitSlug(s)
    ensures '!' !in Slugify(s)
  {
    var k :| 0 <= k < |s| && s[k] == '!';
    assert ToLower(s)[k] == '!';
    SolidPartHas(ToLower(s), '!');
    SolidPartHas(SubmitSlug(s), '!');
  }

  lemma {:induction false} SolidPartHas(s: string, c: char)
    requires Solid(c)
    ensures c in s <==> c in SolidPart(s)
  {
    if s != [] {
      SolidPartHas(s[1..], c);
      assert s == [s[0]] + s[1..];
    }
  }

  /** The letters a to z and the digits of a string, in order. */
  function AlnumPart(s: string): string
  {
    if s == [] then [] else (if SlugChar(s[0]) && s[0] != '-' then [s[0]] else []) + AlnumPart(s[1..])
  }

  lemma {:induction false} AlnumOfSolid(s: string)
    ensures AlnumPart(SolidPart(s)) == AlnumPart(s)
  {
    if s != [] {
      AlnumOfSolid(s[1..]);
      if Solid(s[0]) {
        var t := [s[0]] + SolidPart(s[1..]);
        assert t[0] == s[0] && t[1..] == SolidPart(s[1..]);
      } else {
        assert !(SlugChar(s[0]) && s[0] != '-');
        assert SolidPart(s) == SolidPart(s[1..]);
      }
    }
  }

  lemma {:induction false} AlnumOfSlugChars(s: string)
    ensures AlnumPart(Seqs.Filter(s, SlugChar)) == AlnumPart(s)
  {
    if s != [] {
      AlnumOfSlugChars(s[1..]);
      if SlugChar(s[0]) {
        var t := [s[0]] + Seqs.Filter(s[1..], SlugChar);
        assert t[0] == s[0] && t[1..] == Seqs.Filter(s[1..], SlugChar);
      }
    }
  }

  /** The derived slug keeps every letter and digit of the name, lower-cased
      and in order, and nothing else but dashes. */
  lemma SlugKeepsLettersAndDigits(name: string)
    ensures AlnumPart(Slugify(name)) == AlnumPart(ToLower(name))
  {
    var d := DashRuns(ToLower(name));
    DashRunsSpec(ToLower(name));
    AlnumOfSlugChars(d);
    AlnumOfSolid(d);
    AlnumOfSolid(ToLower(name));
  }

  /** A typed "Acme_Co!" is sent as "acme_co!". */
  lemma AcmeExample()
    ensures SubmitSlug("Acme_Co!") == "acme_co!"
  {
    var l: string := "acme_co!";
    assert ToLower("Acme_Co!") == l by {
      forall i | 0 <= i < 8 ensures ToLower("Acme_Co!")[i] == l[i] { }
    }
    assert forall i :: 0 <= i < |l| ==> !IsJsWhitespace(l[i]) by {
      forall i | 0 <= i < |l| ensures !IsJsWhitespace(l[i]) {
        assert 'a' <= l[i] <= 'z' || l[i] == '_' || l[i] == '!';
      }
    }
    DashRunsNoSpace(l);
  }

  // ---- the create dialog ----

  datatype OrgForm = OrgForm(name: string, slug: string, address: string, phone: string, email: string)

  const EmptyOrgForm: OrgForm := OrgForm("", "", "", "", "")

  datatype OrgBody = OrgBody(name: string, slug: string, address: Option<string>, phone: Option<string>, email: Option<string>)

  /** The body sent on create: the slug normalised again, empty optional
      fields as null. */
  function OrgPayload(form: OrgForm): (b: OrgBody)
    ensures b.name == form.name && b.slug == SubmitSlug(form.slug)
    ensures b.address.None? <==> form.address == ""
    ensures b.phone.None? <==> form.phone == ""
    ensures b.email.None? <==> form.email == ""
    ensures b.address.Some? ==> b.address.value == form.address
    ensures b.phone.Some? ==> b.phone.value == form.phone
    ensures b.email.Some? ==> b.email.value == form.email
  {
    OrgBody(form.name, SubmitSlug(form.slug), OrNull(form.address), OrNull(form.phone), OrNull(form.email))
  }

  class OrgDialog {
    var open: bool
    var form: OrgForm

    constructor ()
      ensures !open && form == EmptyOrgForm
    {
      open := false;
      form := EmptyOrgForm;
    }

    /** Typing a name rewrites the slug from it and keeps the other fields. */
    method NameChanged(name: string)
      modifies this
      ensures form == old(form).(name := name, slug := Slugify(name))
      ensures open == old(open)
    {
      form := form.(name := name, slug := Slugify(name));
    }

    /** Typing in the slug field stores the text as typed. */
    method SlugChanged(slug: string)
      modifies this
      ensures form == old(form).(slug := slug)
      ensures open == old(open)
    {
      form := form.(slug := slug);
    }

    /** Sends the payload; a success closes the dialog and clears the form. */
    method Create(succeeded: bool) returns (sent: OrgBody)
      modifies this
      ensures sent == OrgPayload(old(form))
      ensures succeeded ==> !open && form == EmptyOrgForm
      ensures !succeeded ==> open == old(open) && form == old(form)
    {
      sent := OrgPayload(form);
      if succeeded {
        open := false;
        form := EmptyOrgForm;
      }
    }
  }

  /** Typing a name and sending at once sends the derived slug. */
  lemma NameThenCreateSendsDerivedSlug(form: OrgForm, name: string)
    ensures OrgPayload(form.(name := name, slug := Slugify(name))).slug == Slugify(name)
  {
    DerivedSlugSentUnchanged(name);
  }
}
