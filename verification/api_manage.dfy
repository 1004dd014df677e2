/** The key-creation form of `src/app/api-manage/page.tsx`: the permission
    checkboxes and the submit handler. The key itself is not created (the
    handler only logs the request), so submitting is modelled as the request
    it would send. */
module ApiManage {
  import opened Options
  import opened Seqs

  /** The checkboxes offered, in display order. */
  const OfferedPermissions: seq<string> := ["read", "write", "execute", "admin"]

  datatype KeyForm = KeyForm(newKeyName: string, selectedPermissions: seq<string>)

  /** The name and permissions a submit hands on. */
  datatype KeyRequest = KeyRequest(name: string, permissions: seq<string>)

  /** The form as the page starts: no name, only "read" ticked. */
  const InitialForm := KeyForm("", ["read"])

  /** Whether the checkbox of a permission is ticked. */
  predicate Checked(f: KeyForm, permission: string) {
    permission in f.selectedPermissions
  }

  /** `togglePermission` on the selection: a selected permission is taken
      out wherever it occurs, an unselected one is appended. */
  function Toggle(selected: seq<string>, permission: string): (r: seq<string>)
    ensures permission in r <==> permission !in selected
    ensures permission !in selected ==> r == selected + [permission]
    ensures permission in selected ==>
              forall q :: q != permission ==> multiset(r)[q] == multiset(selected)[q]
    ensures forall q :: q != permission ==> (q in r <==> q in selected)
  {
    if permission in selected then
      var r := RemoveAll(selected, permission);
      assert forall q :: q != permission ==> (q in r <==> q in selected) by {
        forall q | q != permission ensures q in r <==> q in selected {
          assert multiset(r)[q] == multiset(selected)[q];
        }
      }
      r
    else selected + [permission]
  }

  function TogglePermission(f: KeyForm, permission: string): (f': KeyForm)
    ensures Checked(f', permission) <==> !Checked(f, permission)
    ensures forall q :: q != permission ==> (Checked(f', q) <==> Checked(f, q))
    ensures f'.newKeyName == f.newKeyName
  {
    f.(selectedPermissions := Toggle(f.selectedPermissions, permission))
  }

  /** Ticking a box twice gives back the same ticks; when it started
      unticked, even the same list. */
  lemma ToggleTwice(f: KeyForm, permission: string)
    ensures var f2 := TogglePermission(TogglePermission(f, permission), permission);
            && (forall q :: Checked(f2, q) <==> Checked(f, q))
            && (!Checked(f, permission) ==> f2 == f)
  {
    var s := f.selectedPermissions;
    if permission !in s {
      var s1 := Toggle(s, permission);
      assert s1 == s + [permission];
      assert RemoveAll(s1, permission) == s by {
        RemoveAllAppended(s, permission);
      }
    }
  }

  /** Taking `x` out of a list without `x` and one `x` appended gives the
      list back. */
  lemma {:induction false} RemoveAllAppended(s: seq<string>, x: string)
    requires x !in s
    ensures RemoveAll(s + [x], x) == s
    decreases |s|
  {
    if |s| == 0 {
      assert s + [x] == [x];
    } else {
      assert (s + [x])[1..] == s[1..] + [x];
      RemoveAllAppended(s[1..], x);
      assert s == [s[0]] + s[1..];
    }
  }

  /** Toggling keeps a selection free of repeats, so the list never holds a
      permission twice. */
  lemma ToggleKeepsDistinct(selected: seq<string>, permission: string)
    requires NoDuplicates(selected)
    ensures NoDuplicates(Toggle(selected, permission))
  {
    var r := Toggle(selected, permission);
    if permission in selected {
      forall q ensures multiset(r)[q] <= 1 {
        AtMostOnce(selected, q);
      }
      CountsAtMostOne(r);
    }
  }

  /** A list in which no value occurs twice has no repeats. */
  lemma {:induction false} CountsAtMostOne(xs: seq<string>)
    requires forall q :: multiset(xs)[q] <= 1
    ensures NoDuplicates(xs)
    decreases |xs|
  {
    if |xs| > 0 {
      assert xs == [xs[0]] + xs[1..];
      assert multiset(xs) == multiset{xs[0]} + multiset(xs[1..]);
      assert multiset(xs)[xs[0]] == 1 + multiset(xs[1..])[xs[0]];
      assert xs[0] !in xs[1..];
      assert forall q :: multiset(xs[1..])[q] <= multiset(xs)[q];
      CountsAtMostOne(xs[1..]);
      forall i, j | 0 <= i < j < |xs| ensures xs[i] != xs[j] {
        if i > 0 {
          assert xs[i] == xs[1..][i - 1] && xs[j] == xs[1..][j - 1];
        } else {
          assert xs[j] in xs[1..];
        }
      }
    }
  }

  /** In a list without repeats every value occurs at most once. */
  lemma {:induction false} AtMostOnce(xs: seq<string>, x: string)
    requires NoDuplicates(xs)
    ensures multiset(xs)[x] <= 1
    decreases |xs|
  {
    if |xs| > 0 {
      assert xs == [xs[0]] + xs[1..];
      AtMostOnce(xs[1..], x);
      if xs[0] == x {
        assert x !in xs[1..];
      }
    }
  }

  /** `handleCreateKey` behind the form's `required` name field: with an
      empty name the browser blocks the submit; otherwise the request carries
      the name and the ticked permissions, and the name is cleared while the
      ticks stay. */
  function CreateKey(f: KeyForm): (o: (KeyForm, Option<KeyRequest>))
    ensures f.newKeyName == "" ==> o.0 == f && o.1.None?
    ensures f.newKeyName != "" ==>
              && o.1 == Some(KeyRequest(f.newKeyName, f.selectedPermissions))
              && o.0.newKeyName == ""
              && o.0.selectedPermissions == f.selectedPermissions
  {
    if f.newKeyName == "" then (f, None)
    else (KeyForm("", f.selectedPermissions), Some(KeyRequest(f.newKeyName, f.selectedPermissions)))
  }

  /** After a key is requested, submitting again asks for nothing until a
      new name is typed, and the ticks stay as they were. */
  lemma CreateKeyOnce(f: KeyForm)
    requires f.newKeyName != ""
    ensures var (f1, req1) := CreateKey(f);
            var (f2, req2) := CreateKey(f1);
            req1.Some? && req2.None? && f2 == f1
            && forall q :: Checked(f2, q) <==> Checked(f, q)
  {
  }

  /** Starting from the initial form, the ticks are always among the offered
      permissions and never repeat, whichever boxes are clicked. */
  lemma {:induction false} ClicksStayOffered(f: KeyForm, clicks: seq<nat>)
    requires NoDuplicates(f.selectedPermissions)
    requires forall q :: Checked(f, q) ==> q in OfferedPermissions
    requires forall k :: 0 <= k < |clicks| ==> clicks[k] < |OfferedPermissions|
    ensures var f' := ApplyClicks(f, clicks);
            NoDuplicates(f'.selectedPermissions) && forall q :: Checked(f', q) ==> q in OfferedPermissions
    decreases |clicks|
  {
    if |clicks| > 0 {
      var f1 := TogglePermission(f, OfferedPermissions[clicks[0]]);
      ToggleKeepsDistinct(f.selectedPermissions, OfferedPermissions[clicks[0]]);
      ClicksStayOffered(f1, clicks[1..]);
    }
  }

  /** Clicking the checkboxes with the given positions, in order. */
  function ApplyClicks(f: KeyForm, clicks: seq<nat>): KeyForm
    requires forall k :: 0 <= k < |clicks| ==> clicks[k] < |OfferedPermissions|
    decreases |clicks|
  {
    if |clicks| == 0 then f
    else ApplyClicks(TogglePermission(f, OfferedPermissions[clicks[0]]), clicks[1..])
  }

  /** The initial form satisfies what `ClicksStayOffered` asks for. */
  lemma InitialFormOffered()
    ensures NoDuplicates(InitialForm.selectedPermissions)
    ensures forall q :: Checked(InitialForm, q) ==> q in OfferedPermissions
    ensures Checked(InitialForm, "read") && !Checked(InitialForm, "write")
  {
  }
}
