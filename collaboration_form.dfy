/** The "Create New Collaboration" dialog (src/components/CollaborationModal.tsx):
    the form record, the member being composed, and the handlers that check
    the share-percentage budget before changing either. Toast messages are
    returned as values. */
module CollaborationForm {
  import opened Common
  import opened Text

  datatype Role = Admin | Member | Viewer

  datatype TeamMember = TeamMember(user: string, role: Role, sharePercentage: int)

  /** The value of a form control: text from an input or the state of a
      switch. */
  datatype Value = Str(s: string) | Flag(b: bool)

  /** `formData`. The top-level scalar fields (`name`, `description`, and any
      other key a caller writes) and the settings are key/value maps because
      `handleInputChange` addresses them by a field name computed at run
      time. */
  datatype Form = Form(fields: map<string, Value>, members: seq<TeamMember>, settings: map<string, Value>)

  const DefaultSettings: map<string, Value> := map[
    "allowIncomeSharing" := Flag(true),
    "allowExpenseSharing" := Flag(true),
    "allowMemberInvites" := Flag(true),
    "requireApproval" := Flag(false),
    "visibility" := Str("invite-only")]

  /** The empty form, both initially and after a submit. */
  const EmptyForm: Form := Form(map["name" := Str(""), "description" := Str("")], [], DefaultSettings)

  /** The member inputs' initial and reset value. */
  const DefaultNewMember: TeamMember := TeamMember("", Member, 0)

  const ShareCapMessage := "Total share percentage cannot exceed 100%"
  const MissingUserMessage := "Please enter a user email or ID"

  function MemberShare(m: TeamMember): int { m.sharePercentage }

  /** `totalSharePercentage`: the members' shares added up. */
  function TotalShare(members: seq<TeamMember>): int
  {
    SumInt(members, MemberShare)
  }

  /** `!formData.name.trim()`. A name that is missing or is not text counts
      as blank. */
  predicate NameIsBlank(form: Form)
  {
    !("name" in form.fields && form.fields["name"].Str? && !IsBlank(form.fields["name"].s))
  }

  // ---------------------------------------------------------------------
  // Adding and removing members

  datatype AddOutcome = AddOutcome(form: Form, newMember: TeamMember, error: Option<string>)

  /** `handleAddMember`: a blank user id is refused, then a member that
      would take the total over 100; otherwise it is appended and the inputs
      reset. */
  function AddMember(form: Form, newMember: TeamMember): (r: AddOutcome)
    ensures IsBlank(newMember.user) ==>
      r == AddOutcome(form, newMember, Some(MissingUserMessage))
    ensures !IsBlank(newMember.user) && TotalShare(form.members) + newMember.sharePercentage > 100 ==>
      r == AddOutcome(form, newMember, Some(ShareCapMessage))
    ensures r.error.None? <==>
      !IsBlank(newMember.user) && TotalShare(form.members) + newMember.sharePercentage <= 100
    ensures r.error.None? ==>
      && r.form == form.(members := form.members + [newMember])
      && r.newMember == DefaultNewMember
      && TotalShare(r.form.members) == TotalShare(form.members) + newMember.sharePercentage
  {
    if IsBlank(newMember.user) then AddOutcome(form, newMember, Some(MissingUserMessage))
    else if TotalShare(form.members) + newMember.sharePercentage > 100 then
      AddOutcome(form, newMember, Some(ShareCapMessage))
    else
      SumIntAppend(form.members, [newMember], MemberShare);
      assert SumInt([newMember], MemberShare) == newMember.sharePercentage by {
        assert [newMember][..0] == [];
      }
      AddOutcome(form.(members := form.members + [newMember]), DefaultNewMember, None)
  }

  /** `members.filter((_, i) => i !== index)`. */
  function WithoutIndex<T>(xs: seq<T>, index: int): seq<T>
  {
    if xs == [] then []
    else WithoutIndex(xs[..|xs| - 1], index) + (if |xs| - 1 != index then [xs[|xs| - 1]] else [])
  }

  /** Filtering out one position is cutting the sequence there; a position
      outside the sequence changes nothing. */
  lemma {:induction false} WithoutIndexIsSplice<T>(xs: seq<T>, index: int)
    ensures 0 <= index < |xs| ==> WithoutIndex(xs, index) == xs[..index] + xs[index + 1..]
    ensures !(0 <= index < |xs|) ==> WithoutIndex(xs, index) == xs
  {
    if xs != [] {
      var n := |xs|;
      var init, last := xs[..n - 1], xs[n - 1];
      WithoutIndexIsSplice(init, index);
      if 0 <= index < n - 1 {
        assert WithoutIndex(xs, index) == init[..index] + init[index + 1..] + [last];
        assert init[..index] == xs[..index];
        assert init[index + 1..] + [last] == xs[index + 1..];
      } else if index == n - 1 {
        assert WithoutIndex(xs, index) == init;
        assert xs[index + 1..] == [] && xs[..index] == init;
      } else {
        assert WithoutIndex(xs, index) == init + [last];
        assert init + [last] == xs;
      }
    }
  }

  /** `handleRemoveMember(index)`: exactly the member at `index` goes, the
      others keep their order. */
  function RemoveMember(form: Form, index: int): (r: Form)
    ensures 0 <= index < |form.members| ==>
      r.members == form.members[..index] + form.members[index + 1..]
    ensures !(0 <= index < |form.members|) ==> r.members == form.members
    ensures r.fields == form.fields && r.settings == form.settings
  {
    WithoutIndexIsSplice(form.members, index);
    form.(members := WithoutIndex(form.members, index))
  }

  /** Adding keeps the total within 100 whatever the shares, because the
      guard checks the new total. */
  lemma AddKeepsCap(form: Form, newMember: TeamMember)
    requires TotalShare(form.members) <= 100
    ensures TotalShare(AddMember(form, newMember).form.members) <= 100
  {
  }

  /** Removing a member with a non-negative share keeps the total within
      100. */
  lemma RemoveKeepsCap(form: Form, index: int)
    requires TotalShare(form.members) <= 100
    requires forall i :: 0 <= i < |form.members| ==> form.members[i].sharePercentage >= 0
    ensures TotalShare(RemoveMember(form, index).members) <= 100
  {
    var ms := form.members;
    if 0 <= index < |ms| {
      var pre, post := ms[..index], ms[index + 1..];
      assert ms == pre + [ms[index]] + post;
      ShareWithout(pre, ms[index], post);
    }
  }

  /** The total with one member taken out is the total less that member's
      share. */
  lemma ShareWithout(pre: seq<TeamMember>, m: TeamMember, post: seq<TeamMember>)
    ensures TotalShare(pre + [m] + post) == TotalShare(pre + post) + m.sharePercentage
  {
    SumIntAppend(pre + [m], post, MemberShare);
    SumIntAppend(pre, [m], MemberShare);
    SumIntAppend(pre, post, MemberShare);
    assert SumInt([m], MemberShare) == m.sharePercentage by {
      assert [m][..0] == [];
    }
  }

  /** The share input accepts negative numbers (`parseInt` of "-10" is -10),
      and then removing a member can take the total over 100: add -10, add
      105, remove the first. */
  lemma NegativeShareBreaksCap()
    ensures var f1 := AddMember(EmptyForm, TeamMember("a", Member, -10)).form;
      var f2 := AddMember(f1, TeamMember("b", Member, 105)).form;
      && f2.members == [TeamMember("a", Member, -10), TeamMember("b", Member, 105)]
      && TotalShare(f2.members) <= 100
      && TotalShare(RemoveMember(f2, 0).members) == 105
  {
    var a := TeamMember("a", Member, -10);
    var b := TeamMember("b", Member, 105);
    assert !IsBlank(a.user) by { assert a.user[0] == 'a'; }
    assert !IsBlank(b.user) by { assert b.user[0] == 'b'; }
    assert [a, b][..1] == [a];
    assert [a][..0] == [];
    assert [b][..0] == [];
    assert TotalShare(EmptyForm.members) == 0;
    var f1 := AddMember(EmptyForm, a).form;
    assert f1.members == [a];
    assert TotalShare([a]) == -10;
    var f2 := AddMember(f1, b).form;
    assert f2.members == [a, b];
    assert RemoveMember(f2, 0).members == [b];
  }

  /** The member share input: `parseInt(value) || 0`. */
  function ShareInput(text: string): (r: int)
    ensures JsParseInt(text).None? ==> r == 0
    ensures JsParseInt(text).Some? ==> r == JsParseInt(text).value
  {
    IntOr(JsParseInt(text), 0)
  }

  /** A typed integer reaches the member record unchanged. */
  lemma ShareInputOfNumber(n: int)
    ensures ShareInput(IntToString(n)) == n
  {
    JsParseIntOfIntToString(n);
  }

  // ---------------------------------------------------------------------
  // Editing and submitting the form

  /** `handleInputChange(field, value)`: a `settings.` field writes the named
      setting, any other field writes that top-level key. The dialog's
      inputs never pass `members` or `settings` as a top-level field, which
      in the source would replace the member list or the settings object;
      here such a name lands in `fields`. */
  function InputChange(form: Form, field: string, value: Value): (r: Form)
    ensures r.members == form.members
    ensures StartsWith(field, "settings.") ==>
      && r.fields == form.fields
      && field[9..] in r.settings && r.settings[field[9..]] == value
      && (forall k :: k in form.settings && k != field[9..] ==> k in r.settings && r.settings[k] == form.settings[k])
      && r.settings.Keys == form.settings.Keys + {field[9..]}
    ensures !StartsWith(field, "settings.") ==>
      && r.settings == form.settings
      && field in r.fields && r.fields[field] == value
      && (forall k :: k in form.fields && k != field ==> k in r.fields && r.fields[k] == form.fields[k])
      && r.fields.Keys == form.fields.Keys + {field}
  {
    if StartsWith(field, "settings.") then
      form.(settings := form.settings[field[|"settings."|..] := value])
    else
      form.(fields := form.fields[field := value])
  }

  /** Writing a setting and reading it back gives the written value; a
      second write of the same key overrides the first. */
  lemma InputChangeOverrides(form: Form, key: string, v1: Value, v2: Value)
    ensures InputChange(InputChange(form, "settings." + key, v1), "settings." + key, v2)
         == InputChange(form, "settings." + key, v2)
  {
    var field := "settings." + key;
    assert StartsWith(field, "settings.");
    assert field[9..] == key;
  }

  datatype SubmitOutcome = SubmitOutcome(submitted: Option<Form>, form: Form, error: Option<string>)

  /** `handleSubmit`: a blank name is ignored silently, a member total above
      100 is refused with a toast, anything else is passed to `onSubmit` and
      the form starts over. */
  function Submit(form: Form): (r: SubmitOutcome)
    ensures NameIsBlank(form) ==> r == SubmitOutcome(None, form, None)
    ensures !NameIsBlank(form) && TotalShare(form.members) > 100 ==>
      r == SubmitOutcome(None, form, Some(ShareCapMessage))
    ensures !NameIsBlank(form) && TotalShare(form.members) <= 100 ==>
      r == SubmitOutcome(Some(form), EmptyForm, None)
  {
    if NameIsBlank(form) then SubmitOutcome(None, form, None)
    else if TotalShare(form.members) > 100 then SubmitOutcome(None, form, Some(ShareCapMessage))
    else SubmitOutcome(Some(form), EmptyForm, None)
  }

  /** Whatever reaches `onSubmit` has a non-blank name and members within
      the 100% budget, and the form then has a blank name again. */
  lemma SubmittedFormsAreValid(form: Form)
    ensures Submit(form).submitted.Some? <==> !NameIsBlank(form) && TotalShare(form.members) <= 100
    ensures Submit(form).submitted.Some? ==> NameIsBlank(Submit(form).form) && Submit(form).form.members == []
  {
    assert IsBlank("");
  }

  /** `trim()` strips every Unicode space separator, so a user id or a
      name made of an ideographic space (U+3000) alone is blank: the member
      is refused with the missing-user toast and the form is not submitted. */
  lemma IdeographicSpaceIsBlank(form: Form)
    ensures AddMember(form, TeamMember("\U{3000}", Member, 0)).error == Some(MissingUserMessage)
    ensures Submit(form.(fields := form.fields["name" := Str("\U{3000}")])).submitted.None?
  {
    assert IsBlank("\U{3000}");
  }

  /** A form built only through `AddMember` can always be submitted once it
      has a name: the guard at add time is the one checked at submit time. */
  lemma AddedMembersPassSubmit(form: Form, newMember: TeamMember)
    requires TotalShare(form.members) <= 100 && !NameIsBlank(form)
    ensures Submit(AddMember(form, newMember).form).submitted.Some?
  {
  }
}
