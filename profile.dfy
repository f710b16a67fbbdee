/** The profile page (components/Profile.tsx): course list editing, the
    name, major and avatar fields, and the avatar shown. Every handler
    computes a new profile and hands it to `setProfileData`; only the
    course input box is state of the page itself. */
module ProfilePage {
  import opened Wrappers
  import opened Seqs
  import opened Text
  import opened Types
  import opened Constants

  function Names(cs: seq<Course>): (r: seq<string>)
    ensures |r| == |cs| && forall i :: 0 <= i < |cs| ==> r[i] == cs[i].name
  {
    if cs == [] then [] else [cs[0].name] + Names(cs[1..])
  }

  lemma NamesAppend(cs: seq<Course>, c: Course)
    ensures Names(cs + [c]) == Names(cs) + [c.name]
  {
  }

  /** `handleCourseAdd` on the profile: the trimmed input is added as a new
      course with the given id (the current time in milliseconds, as text)
      exactly when it is non-empty and no course has that name already. */
  function CourseAdded(p: UserProfile, input: string, id: string): (r: Option<UserProfile>)
    ensures r.Some? <==> !IsBlank(input) && Trim(input) !in Names(p.courses)
    ensures r.Some? ==> r.value == p.(courses := p.courses + [Course(id, Trim(input))])
  {
    TrimSpec(input);
    var name := Trim(input);
    if name != [] && name !in Names(p.courses) then
      Some(p.(courses := p.courses + [Course(id, name)]))
    else None
  }

  /** The courses whose id is not `id`, in their order: `filter`. */
  function WithoutId(cs: seq<Course>, id: string): (r: seq<Course>)
    ensures forall c :: c in r <==> c in cs && c.id != id
    ensures |r| <= |cs|
  {
    if cs == [] then []
    else if cs[0].id == id then WithoutId(cs[1..], id)
    else [cs[0]] + WithoutId(cs[1..], id)
  }

  /** Removal keeps the order: removing from two lists one after the other
      is removing from each. */
  lemma {:induction false} WithoutIdAppend(a: seq<Course>, b: seq<Course>, id: string)
    ensures WithoutId(a + b, id) == WithoutId(a, id) + WithoutId(b, id)
  {
    if a != [] {
      assert (a + b)[1..] == a[1..] + b;
      WithoutIdAppend(a[1..], b, id);
    } else {
      assert a + b == b;
    }
  }

  /** Removing an id no course has changes nothing. */
  lemma {:induction false} WithoutAbsentId(cs: seq<Course>, id: string)
    requires forall i :: 0 <= i < |cs| ==> cs[i].id != id
    ensures WithoutId(cs, id) == cs
  {
    if cs != [] {
      WithoutAbsentId(cs[1..], id);
    }
  }

  /** `handleCourseRemove`: every course with that id goes, the rest stay. */
  function CourseRemoved(p: UserProfile, id: string): (r: UserProfile)
    ensures r == p.(courses := WithoutId(p.courses, id))
    ensures forall c :: c in r.courses <==> c in p.courses && c.id != id
  {
    p.(courses := WithoutId(p.courses, id))
  }

  /** Course names stay distinct under removal. */
  lemma {:induction false} RemoveKeepsNamesDistinct(cs: seq<Course>, id: string)
    requires Distinct(Names(cs))
    ensures Distinct(Names(WithoutId(cs, id)))
  {
    if cs != [] {
      var rest := cs[1..];
      NamesDistinctTail(cs);
      RemoveKeepsNamesDistinct(rest, id);
      if cs[0].id != id {
        var r := WithoutId(rest, id);
        forall k | 0 <= k < |r| ensures r[k].name != cs[0].name {
          assert r[k] in rest;
          var m :| 0 <= m < |rest| && rest[m] == r[k];
          assert Names(cs)[m + 1] != Names(cs)[0];
        }
        assert Names([cs[0]] + r) == [cs[0].name] + Names(r);
      }
    }
  }

  lemma NamesDistinctTail(cs: seq<Course>)
    requires cs != [] && Distinct(Names(cs))
    ensures Distinct(Names(cs[1..]))
  {
    var rest := cs[1..];
    forall i, j | 0 <= i < j < |rest| ensures Names(rest)[i] != Names(rest)[j] {
      assert Names(cs)[i + 1] != Names(cs)[j + 1];
    }
  }

  /** An accepted addition and a removal both keep course names distinct. */
  lemma CoursesKeepNamesDistinct(p: UserProfile, input: string, newId: string, id: string)
    requires Distinct(Names(p.courses))
    ensures CourseAdded(p, input, newId).Some? ==> Distinct(Names(CourseAdded(p, input, newId).value.courses))
    ensures Distinct(Names(CourseRemoved(p, id).courses))
  {
    RemoveKeepsNamesDistinct(p.courses, id);
    var name := Trim(input);
    NamesAppend(p.courses, Course(newId, name));
  }

  /** Removing a course just added under a fresh id undoes the addition. */
  lemma AddThenRemove(p: UserProfile, input: string, id: string)
    requires CourseAdded(p, input, id).Some?
    requires forall i :: 0 <= i < |p.courses| ==> p.courses[i].id != id
    ensures CourseRemoved(CourseAdded(p, input, id).value, id) == p
  {
    var c := Course(id, Trim(input));
    WithoutIdAppend(p.courses, [c], id);
    WithoutAbsentId(p.courses, id);
    assert WithoutId([c], id) == [];
  }

  /** The text fields and the avatar picker, each setting one field. */
  datatype Edit = SetName(name: string) | SetMajor(major: string) | SetAvatar(avatarId: int)

  function Edited(p: UserProfile, e: Edit): UserProfile {
    match e
    case SetName(n) => p.(name := n)
    case SetMajor(m) => p.(major := m)
    case SetAvatar(a) => p.(avatarId := a)
  }

  /** Each edit touches only its own field: edits commute with the course
      operations, edits of different fields commute, and repeating an edit
      changes nothing more. */
  lemma EditsAreIndependent(p: UserProfile, e: Edit, f: Edit, input: string, newId: string, id: string)
    ensures CourseRemoved(Edited(p, e), id) == Edited(CourseRemoved(p, id), e)
    ensures CourseAdded(Edited(p, e), input, newId).Some? == CourseAdded(p, input, newId).Some?
    ensures CourseAdded(p, input, newId).Some? ==>
      CourseAdded(Edited(p, e), input, newId).value == Edited(CourseAdded(p, input, newId).value, e)
    ensures !(e.SetName? && f.SetName?) && !(e.SetMajor? && f.SetMajor?) && !(e.SetAvatar? && f.SetAvatar?) ==>
      Edited(Edited(p, e), f) == Edited(Edited(p, f), e)
    ensures Edited(Edited(p, e), e) == Edited(p, e)
  {
  }

  /** The remainder of JavaScript's `%`, which takes the sign of `a`. */
  function JsRemainder(a: int, b: int): (r: int)
    requires b > 0
    ensures a >= 0 ==> 0 <= r < b
    ensures a < 0 ==> -b < r <= 0
    ensures a >= 0 ==> r == a % b
  {
    if a >= 0 then a % b else -((-a) % b)
  }

  /** `AVATARS[avatarId % AVATARS.length]`: the index of the avatar shown, or
      None when a negative id gives a negative remainder (undefined). */
  function AvatarIndex(avatarId: int): (r: Option<nat>)
    ensures r.Some? ==> r.value < AvatarCount
    ensures avatarId >= 0 ==> r == Some(avatarId % AvatarCount)
    ensures r.None? <==> avatarId < 0 && avatarId % AvatarCount != 0
  {
    NegatedRemainder(avatarId);
    var k := JsRemainder(avatarId, AvatarCount);
    if k >= 0 then Some(k) else None
  }

  /** An id is a multiple of the avatar count exactly when its negation is. */
  lemma NegatedRemainder(a: int)
    ensures (-a) % AvatarCount == 0 <==> a % AvatarCount == 0
  {
    var n := AvatarCount;
    if a % n == 0 {
      assert -a == n * (-(a / n));
    }
    if (-a) % n == 0 {
      assert a == n * (-((-a) / n));
    }
  }

  /** Every avatar the picker can set is shown as itself. */
  lemma PickedAvatarShown(index: int)
    requires 0 <= index < AvatarCount
    ensures AvatarIndex(Edited(UserProfile("", "", 0, [], [], "", 0, 0.0), SetAvatar(index)).avatarId) == Some(index)
  {
  }

  /** The page's own state: the course name being typed. */
  class ProfileEditor {
    var newCourse: string

    constructor()
      ensures newCourse == ""
    {
      newCourse := "";
    }

    method EditCourseInput(s: string)
      modifies this
      ensures newCourse == s
    {
      newCourse := s;
    }

    /** `handleCourseAdd`: when accepted, the new profile to save, and the
        input is cleared; otherwise nothing is saved and the input is kept. */
    method CourseAdd(profile: UserProfile, id: string) returns (update: Option<UserProfile>)
      modifies this
      ensures update == CourseAdded(profile, old(newCourse), id)
      ensures newCourse == if update.Some? then "" else old(newCourse)
    {
      update := CourseAdded(profile, newCourse, id);
      if update.Some? {
        newCourse := "";
      }
    }
  }
}
