/** The front end's staff store: the nurse list held in memory, the
    copy kept in browser storage under "nurses", the group update by
    name and the member filter. Browser storage is the field `stored`,
    holding the decoded value (`None` for a missing key). */
module Staff {
  import opened Wrappers

  /** One entry of the nurse list. */
  datatype StaffNurse = StaffNurse(name: string, group: int, role: string)

  /** The built-in list the store falls back to: 39 nurses, none in a group. */
  const InitialNurses: seq<StaffNurse> := [
      StaffNurse("王子夙", 0, "leader"),
      StaffNurse("莊佩慧", 0, "leader"),
      StaffNurse("黃靜玲", 0, "leader"),
      StaffNurse("洪秀玲", 0, "member"),
      StaffNurse("蔡秀金", 0, "member"),
      StaffNurse("張慈珮", 0, "member"),
      StaffNurse("許舒惠", 0, "member"),
      StaffNurse("何瑩慧", 0, "member"),
      StaffNurse("林雪美", 0, "member"),
      StaffNurse("謝佩陵", 0, "member"),
      StaffNurse("陳稚平", 0, "member"),
      StaffNurse("李相君", 0, "member"),
      StaffNurse("顧心如", 0, "member"),
      StaffNurse("葉朝菩", 0, "member"),
      StaffNurse("石育菁", 0, "member"),
      StaffNurse("王姿惠", 0, "member"),
      StaffNurse("李宥蓁", 0, "member"),
      StaffNurse("魏凡雅", 0, "member"),
      StaffNurse("周穎昇", 0, "member"),
      StaffNurse("趙仁傑", 0, "member"),
      StaffNurse("施瑩瑩", 0, "member"),
      StaffNurse("葉怡彣", 0, "member"),
      StaffNurse("邱卉羚", 0, "member"),
      StaffNurse("王釋璞", 0, "member"),
      StaffNurse("游佳蓁", 0, "member"),
      StaffNurse("張育蓉", 0, "member"),
      StaffNurse("戴培雅", 0, "member"),
      StaffNurse("李佳欣", 0, "member"),
      StaffNurse("王欣媚", 0, "member"),
      StaffNurse("游芷欣", 0, "member"),
      StaffNurse("林蓁", 0, "member"),
      StaffNurse("洪玉晶", 0, "POR"),
      StaffNurse("劉宸君", 0, "POR"),
      StaffNurse("蔡惠婷", 0, "POR"),
      StaffNurse("陳聿均", 0, "POR"),
      StaffNurse("李孟亭", 0, "POR"),
      StaffNurse("潘靜怡", 0, "POR"),
      StaffNurse("陳盈蓓", 0, "POR"),
      StaffNurse("郭淑慧", 0, "POR")
    ]

  lemma InitialNursesShape()
    ensures |InitialNurses| == 39
    ensures forall i :: 0 <= i < |InitialNurses| ==> InitialNurses[i].group == 0
  {
  }

  /** The index of the first nurse with the given name, if any
      (`Array.prototype.find`). */
  function FindByName(ns: seq<StaffNurse>, name: string): (k: Option<nat>)
    ensures k.None? <==> forall j :: 0 <= j < |ns| ==> ns[j].name != name
    ensures k.Some? ==> k.value < |ns| && ns[k.value].name == name
    ensures k.Some? ==> forall j :: 0 <= j < k.value ==> ns[j].name != name
  {
    if ns == [] then None
    else if ns[0].name == name then Some(0)
    else match FindByName(ns[1..], name)
      case None => None
      case Some(k) => Some(k + 1)
  }

  /** The list after the `updateNurseGroup` mutation: the first nurse named
      `name` gets `group`; a name not in the list changes nothing. */
  function WithGroup(ns: seq<StaffNurse>, name: string, group: int): (r: seq<StaffNurse>)
    ensures |r| == |ns|
    ensures (forall j :: 0 <= j < |ns| ==> ns[j].name != name) ==> r == ns
    ensures (exists j :: 0 <= j < |ns| && ns[j].name == name) ==>
      exists k :: 0 <= k < |ns| && ns[k].name == name
        && (forall j :: 0 <= j < k ==> ns[j].name != name)
        && r[k] == ns[k].(group := group)
        && (forall j :: 0 <= j < |ns| && j != k ==> r[j] == ns[j])
  {
    match FindByName(ns, name)
    case None => ns
    case Some(k) => ns[k := ns[k].(group := group)]
  }

  /** The `memberNurses` getter: the nurses whose role is "member". */
  function MemberNurses(ns: seq<StaffNurse>): (r: seq<StaffNurse>)
    ensures |r| <= |ns|
    ensures forall n :: n in r ==> n in ns && n.role == "member"
  {
    if ns == [] then []
    else if ns[0].role == "member" then [ns[0]] + MemberNurses(ns[1..])
    else MemberNurses(ns[1..])
  }

  /** Every member nurse is kept as often as it occurs; every other nurse
      is dropped. */
  lemma {:induction false} MemberNursesCounts(ns: seq<StaffNurse>, n: StaffNurse)
    ensures multiset(MemberNurses(ns))[n] == if n.role == "member" then multiset(ns)[n] else 0
  {
    if ns != [] {
      MemberNursesCounts(ns[1..], n);
      assert ns == [ns[0]] + ns[1..];
    }
  }

  /** `a` can be obtained from `b` by deleting elements. */
  predicate IsSubsequence(a: seq<StaffNurse>, b: seq<StaffNurse>)
    decreases |b|
  {
    if a == [] then true
    else if b == [] then false
    else if a[0] == b[0] then IsSubsequence(a[1..], b[1..])
    else IsSubsequence(a, b[1..])
  }

  /** The filter keeps the original order. */
  lemma {:induction false} MemberNursesInOrder(ns: seq<StaffNurse>)
    ensures IsSubsequence(MemberNurses(ns), ns)
  {
    if ns != [] {
      MemberNursesInOrder(ns[1..]);
      var r := MemberNurses(ns);
      if ns[0].role == "member" {
        assert r[0] == ns[0] && r[1..] == MemberNurses(ns[1..]);
      } else if r != [] {
        assert r[0] in r;
      }
    }
  }

  /** Filtering a concatenation filters each part. */
  lemma {:induction false} MemberNursesAppend(a: seq<StaffNurse>, b: seq<StaffNurse>)
    ensures MemberNurses(a + b) == MemberNurses(a) + MemberNurses(b)
  {
    if a != [] {
      assert (a + b)[0] == a[0] && (a + b)[1..] == a[1..] + b;
      MemberNursesAppend(a[1..], b);
    } else {
      assert a + b == b;
    }
  }

  /** A list of members only is kept whole; a list without members is dropped. */
  lemma {:induction false} MemberNursesOfUniform(ns: seq<StaffNurse>)
    ensures (forall i :: 0 <= i < |ns| ==> ns[i].role == "member") ==> MemberNurses(ns) == ns
    ensures (forall i :: 0 <= i < |ns| ==> ns[i].role != "member") ==> MemberNurses(ns) == []
  {
    if ns != [] {
      MemberNursesOfUniform(ns[1..]);
    }
  }

  /** The built-in list holds three leaders, then 28 members, then eight
      POR nurses. */
  lemma InitialRoles()
    ensures forall i :: 0 <= i < 3 ==> InitialNurses[i].role == "leader"
    ensures forall i :: 3 <= i < 31 ==> InitialNurses[i].role == "member"
    ensures forall i :: 31 <= i < 39 ==> InitialNurses[i].role == "POR"
  {
  }

  /** A list laid out as non-members, then members, then non-members
      filters to its middle block. */
  lemma {:induction false} MemberNursesOfBlocks(ns: seq<StaffNurse>, lo: nat, hi: nat)
    requires lo <= hi <= |ns|
    requires forall i :: 0 <= i < lo ==> ns[i].role != "member"
    requires forall i :: lo <= i < hi ==> ns[i].role == "member"
    requires forall i :: hi <= i < |ns| ==> ns[i].role != "member"
    ensures MemberNurses(ns) == ns[lo..hi]
  {
    var front, middle, back := ns[..lo], ns[lo..hi], ns[hi..];
    assert ns == front + middle + back;
    assert forall i :: 0 <= i < |front| ==> front[i].role != "member";
    assert forall i :: 0 <= i < |middle| ==> middle[i] == ns[lo + i];
    assert forall i :: 0 <= i < |back| ==> back[i] == ns[hi + i];
    MemberNursesOfUniform(front);
    MemberNursesOfUniform(middle);
    MemberNursesOfUniform(back);
    assert MemberNurses(front) == [];
    assert MemberNurses(middle) == middle;
    assert MemberNurses(back) == [];
    MemberNursesAppend(front, middle);
    assert MemberNurses(front + middle) == middle;
    MemberNursesAppend(front + middle, back);
    assert MemberNurses(ns) == middle + [];
  }

  /** Of the built-in list, exactly the 28 entries from the fourth to the
      thirty-first are members. */
  lemma InitialMembers()
    ensures MemberNurses(InitialNurses) == InitialNurses[3..31]
    ensures |MemberNurses(InitialNurses)| == 28
  {
    InitialNursesShape();
    InitialRoles();
    assert "leader" != "member" by { assert "leader"[0] != "member"[0]; }
    MemberNursesOfBlocks(InitialNurses, 3, 31);
  }

  /** The Vuex module's state together with the browser's stored copy. */
  class StaffStore {
    /** `state.nurses`. */
    var nurses: seq<StaffNurse>
    /** `JSON.parse(localStorage.getItem('nurses'))`; `None` when absent. */
    var stored: Option<seq<StaffNurse>>

    constructor (stored: Option<seq<StaffNurse>>)
      ensures nurses == [] && this.stored == stored
    {
      nurses := [];
      this.stored := stored;
    }

    /** Mutation `setNurses`. */
    method SetNurses(ns: seq<StaffNurse>)
      modifies this`nurses
      ensures nurses == ns
    {
      nurses := ns;
    }

    /** Mutation `updateNurseGroup`. */
    method UpdateNurseGroup(name: string, group: int)
      modifies this`nurses
      ensures nurses == WithGroup(old(nurses), name, group)
    {
      var i := 0;
      while i < |nurses| && nurses[i].name != name
        invariant 0 <= i <= |nurses|
        invariant nurses == old(nurses)
        invariant forall j :: 0 <= j < i ==> nurses[j].name != name
      {
        i := i + 1;
      }
      if i < |nurses| {
        nurses := nurses[i := nurses[i].(group := group)];
      }
    }

    /** Action `saveNurses`. */
    method SaveNurses()
      modifies this`stored
      ensures stored == Some(nurses)
    {
      stored := Some(nurses);
    }

    /** Action `initializeNurses`: a non-empty stored list wins; otherwise
        the built-in list is used and stored. */
    method InitializeNurses()
      modifies this
      ensures old(stored).Some? && old(stored).value != [] ==>
        nurses == old(stored).value && stored == old(stored)
      ensures old(stored).None? || old(stored).value == [] ==>
        nurses == InitialNurses && stored == Some(InitialNurses)
      ensures nurses != [] && stored == Some(nurses)
    {
      var saved := stored;
      if saved.Some? && |saved.value| > 0 {
        SetNurses(saved.value);
      } else {
        SetNurses(InitialNurses);
        SaveNurses();
      }
    }

    /** Action `updateNurseGroup`: commit the mutation, then save. */
    method UpdateNurseGroupAndSave(name: string, group: int)
      modifies this
      ensures nurses == WithGroup(old(nurses), name, group)
      ensures stored == Some(nurses)
    {
      UpdateNurseGroup(name, group);
      SaveNurses();
    }
  }
}
