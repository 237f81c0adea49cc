/**
 * Tool calls put together from shards: the abstract fold that both wire formats refine. Every
 * definition here reads the whole stream; none accumulates.
 */
module Assembly {
  import opened Text

  /** One fragment of the call at `index`; an empty id or name says nothing. */
  datatype Shard = Shard(index: int, id: string, name: string, args: string)

  datatype ToolCall = ToolCall(id: string, name: string, arguments: string)

  datatype Reply = Reply(content: string, calls: seq<ToolCall>)

  /** The indices in the order of their first appearance. */
  function Order(shards: seq<Shard>): seq<int> {
    if shards == [] then []
    else
      var before, i := Order(shards[..|shards| - 1]), shards[|shards| - 1].index;
      if i in before then before else before + [i]
  }

  /** The shards of one index. */
  function Of(shards: seq<Shard>, i: int): seq<Shard> {
    if shards == [] then []
    else
      var before, last := Of(shards[..|shards| - 1], i), shards[|shards| - 1];
      if last.index == i then before + [last] else before
  }

  function LastId(own: seq<Shard>): string {
    if own == [] then ""
    else if own[|own| - 1].id != "" then own[|own| - 1].id
    else LastId(own[..|own| - 1])
  }

  function LastName(own: seq<Shard>): string {
    if own == [] then ""
    else if own[|own| - 1].name != "" then own[|own| - 1].name
    else LastName(own[..|own| - 1])
  }

  function Fragments(own: seq<Shard>): string {
    if own == [] then "" else Fragments(own[..|own| - 1]) + own[|own| - 1].args
  }

  function CallOf(own: seq<Shard>): ToolCall {
    ToolCall(LastId(own), LastName(own), Fragments(own))
  }

  /** One call for each index, in order of first appearance. */
  function Assemble(shards: seq<Shard>): seq<ToolCall> {
    seq(|Order(shards)|, k requires 0 <= k < |Order(shards)| => CallOf(Of(shards, Order(shards)[k])))
  }

  ghost predicate Distinct(s: seq<int>) {
    forall j, k :: 0 <= j < k < |s| ==> s[j] != s[k]
  }

  lemma {:induction false} OrderIsDistinct(shards: seq<Shard>)
    ensures Distinct(Order(shards))
    ensures forall i :: i in Order(shards) <==> Of(shards, i) != []
  {
    if shards != [] {
      OrderIsDistinct(shards[..|shards| - 1]);
    }
  }

  // ----- what the fold means

  /** The calls come in the order in which their indices first appear. */
  lemma {:induction false} OrderIsByFirstAppearance(shards: seq<Shard>, j: nat, k: nat) returns (p: nat)
    requires j < k < |Order(shards)|
    ensures p < |shards| && shards[p].index == Order(shards)[j]
    ensures forall q :: 0 <= q <= p ==> shards[q].index != Order(shards)[k]
  {
    var before, last := shards[..|shards| - 1], shards[|shards| - 1];
    OrderIsDistinct(shards);
    if k < |Order(before)| {
      p := OrderIsByFirstAppearance(before, j, k);
    } else {
      assert Order(before)[j] in Order(before);
      p := Appears(before, Order(before)[j]);
      forall q | 0 <= q <= p
        ensures shards[q].index != last.index
      {
        AppearsInOrder(before, q);
      }
    }
  }

  lemma {:induction false} Appears(shards: seq<Shard>, i: int) returns (p: nat)
    requires i in Order(shards)
    ensures p < |shards| && shards[p].index == i
  {
    if shards[|shards| - 1].index == i {
      p := |shards| - 1;
    } else {
      p := Appears(shards[..|shards| - 1], i);
    }
  }

  lemma {:induction false} AppearsInOrder(shards: seq<Shard>, p: nat)
    requires p < |shards|
    ensures shards[p].index in Order(shards)
  {
    if p < |shards| - 1 {
      AppearsInOrder(shards[..|shards| - 1], p);
    }
  }

  /** The id is the last one that is not empty. */
  lemma {:induction false} LastIdIsLast(own: seq<Shard>)
    ensures LastId(own) == "" <==> forall p :: 0 <= p < |own| ==> own[p].id == ""
    ensures LastId(own) != "" ==>
      exists p :: 0 <= p < |own| && own[p].id == LastId(own) && (forall q :: p < q < |own| ==> own[q].id == "")
  {
    if own != [] {
      var before := own[..|own| - 1];
      LastIdIsLast(before);
      assert forall p :: 0 <= p < |before| ==> before[p] == own[p];
      if LastId(before) != "" && own[|own| - 1].id == "" {
        var p :| 0 <= p < |before| && before[p].id == LastId(before)
          && (forall q :: p < q < |before| ==> before[q].id == "");
        assert own[p].id == LastId(own) && forall q :: p < q < |own| ==> own[q].id == "";
      }
    }
  }

  /** So is the name. */
  lemma {:induction false} LastNameIsLast(own: seq<Shard>)
    ensures LastName(own) == "" <==> forall p :: 0 <= p < |own| ==> own[p].name == ""
    ensures LastName(own) != "" ==>
      exists p :: 0 <= p < |own| && own[p].name == LastName(own) && (forall q :: p < q < |own| ==> own[q].name == "")
  {
    if own != [] {
      var before := own[..|own| - 1];
      LastNameIsLast(before);
      assert forall p :: 0 <= p < |before| ==> before[p] == own[p];
      if LastName(before) != "" && own[|own| - 1].name == "" {
        var p :| 0 <= p < |before| && before[p].name == LastName(before)
          && (forall q :: p < q < |before| ==> before[q].name == "");
        assert own[p].name == LastName(own) && forall q :: p < q < |own| ==> own[q].name == "";
      }
    }
  }

  /** One shard for each call. */
  function Whole(calls: seq<ToolCall>): seq<Shard> {
    seq(|calls|, k requires 0 <= k < |calls| => Shard(k, calls[k].id, calls[k].name, calls[k].arguments))
  }

  lemma WholeAppend(calls: seq<ToolCall>)
    requires calls != []
    ensures
      var before, k := calls[..|calls| - 1], |calls| - 1;
      Whole(calls) == Whole(before) + [Shard(k, calls[k].id, calls[k].name, calls[k].arguments)]
  {
  }

  lemma {:induction false} WholeOrder(calls: seq<ToolCall>)
    ensures |Order(Whole(calls))| == |calls| && forall j :: 0 <= j < |calls| ==> Order(Whole(calls))[j] == j
  {
    if calls != [] {
      var before := calls[..|calls| - 1];
      WholeOrder(before);
      WholeAppend(calls);
      OfAppend(Whole(before), Whole(calls)[|calls| - 1], 0);
    }
  }

  lemma {:induction false} WholeOf(calls: seq<ToolCall>, k: int)
    ensures Of(Whole(calls), k) == if 0 <= k < |calls| then [Whole(calls)[k]] else []
  {
    if calls != [] {
      var before := calls[..|calls| - 1];
      WholeOf(before, k);
      WholeAppend(calls);
      OfAppend(Whole(before), Whole(calls)[|calls| - 1], k);
    }
  }

  /** Any list of calls comes back from its shards; by SplitAnywhere and SwapAnywhere also from smaller ones. */
  lemma WholeCallsComeBack(calls: seq<ToolCall>)
    ensures Assemble(Whole(calls)) == calls
  {
    WholeOrder(calls);
    forall k | 0 <= k < |calls|
      ensures Assemble(Whole(calls))[k] == calls[k]
    {
      WholeOf(calls, k);
      CallAppend([], Whole(calls)[k]);
      assert [] + [Whole(calls)[k]] == [Whole(calls)[k]] && "" + calls[k].arguments == calls[k].arguments;
    }
  }

  // ----- independence of sharding and interleaving

  datatype Atom = SetId(id: string) | SetName(name: string) | Char(c: char)

  function Header(s: Shard): seq<Atom> {
    (if s.id == "" then [] else [SetId(s.id)]) + (if s.name == "" then [] else [SetName(s.name)])
  }

  function Chars(args: string): seq<Atom> {
    seq(|args|, k requires 0 <= k < |args| => Char(args[k]))
  }

  function Piece(s: Shard): seq<Atom> {
    Header(s) + Chars(s.args)
  }

  /** A call's stream broken into the smallest pieces. */
  function Atoms(own: seq<Shard>): seq<Atom> {
    if own == [] then [] else Atoms(own[..|own| - 1]) + Piece(own[|own| - 1])
  }

  function IdFrom(atoms: seq<Atom>): string {
    if atoms == [] then ""
    else if atoms[|atoms| - 1].SetId? then atoms[|atoms| - 1].id
    else IdFrom(atoms[..|atoms| - 1])
  }

  function NameFrom(atoms: seq<Atom>): string {
    if atoms == [] then ""
    else if atoms[|atoms| - 1].SetName? then atoms[|atoms| - 1].name
    else NameFrom(atoms[..|atoms| - 1])
  }

  function ArgsFrom(atoms: seq<Atom>): string {
    if atoms == [] then ""
    else
      var before, last := ArgsFrom(atoms[..|atoms| - 1]), atoms[|atoms| - 1];
      if last.Char? then before + [last.c] else before
  }

  lemma {:induction false} AfterChars(atoms: seq<Atom>, args: string)
    ensures IdFrom(atoms + Chars(args)) == IdFrom(atoms)
    ensures NameFrom(atoms + Chars(args)) == NameFrom(atoms)
    ensures ArgsFrom(atoms + Chars(args)) == ArgsFrom(atoms) + args
  {
    if args == "" {
      assert atoms + Chars(args) == atoms;
    } else {
      var before, c := args[..|args| - 1], args[|args| - 1];
      AfterChars(atoms, before);
      AfterOne(atoms + Chars(before), Char(c));
      CharsAppend(before, c);
      assert args == before + [c];
      Associates(atoms, Chars(before), [Char(c)]);
      Associates(ArgsFrom(atoms), before, [c]);
    }
  }

  lemma CharsAppend(args: string, c: char)
    ensures Chars(args + [c]) == Chars(args) + [Char(c)]
  {
  }

  lemma AfterOne(atoms: seq<Atom>, a: Atom)
    ensures IdFrom(atoms + [a]) == if a.SetId? then a.id else IdFrom(atoms)
    ensures NameFrom(atoms + [a]) == if a.SetName? then a.name else NameFrom(atoms)
    ensures ArgsFrom(atoms + [a]) == if a.Char? then ArgsFrom(atoms) + [a.c] else ArgsFrom(atoms)
  {
    assert (atoms + [a])[..|atoms|] == atoms;
  }

  lemma AfterHeader(atoms: seq<Atom>, s: Shard)
    ensures IdFrom(atoms + Header(s)) == if s.id != "" then s.id else IdFrom(atoms)
    ensures NameFrom(atoms + Header(s)) == if s.name != "" then s.name else NameFrom(atoms)
    ensures ArgsFrom(atoms + Header(s)) == ArgsFrom(atoms)
  {
    var first := if s.id == "" then atoms else atoms + [SetId(s.id)];
    if s.id != "" {
      AfterOne(atoms, SetId(s.id));
    }
    if s.name != "" {
      AfterOne(first, SetName(s.name));
      assert atoms + Header(s) == first + [SetName(s.name)];
    } else {
      assert atoms + Header(s) == first;
    }
  }

  lemma AfterPiece(atoms: seq<Atom>, s: Shard)
    ensures IdFrom(atoms + Piece(s)) == if s.id != "" then s.id else IdFrom(atoms)
    ensures NameFrom(atoms + Piece(s)) == if s.name != "" then s.name else NameFrom(atoms)
    ensures ArgsFrom(atoms + Piece(s)) == ArgsFrom(atoms) + s.args
  {
    assert atoms + Piece(s) == atoms + Header(s) + Chars(s.args);
    AfterHeader(atoms, s);
    AfterChars(atoms + Header(s), s.args);
  }

  /** The atoms of an index determine its call. */
  lemma {:induction false} CallFromAtoms(own: seq<Shard>)
    ensures CallOf(own) == ToolCall(IdFrom(Atoms(own)), NameFrom(Atoms(own)), ArgsFrom(Atoms(own)))
  {
    if own != [] {
      var before, last := own[..|own| - 1], own[|own| - 1];
      CallFromAtoms(before);
      AfterPiece(Atoms(before), last);
    }
  }

  /**
   * However the same calls are split into shards, and however the shards of different calls
   * interleave, the same message comes out: all that counts is the order in which indices
   * first appear and, for each index on its own, the sequence of atoms.
   */
  lemma ShardingIndependence(shards: seq<Shard>, others: seq<Shard>)
    requires Order(shards) == Order(others)
    requires forall i :: i in Order(shards) ==> Atoms(Of(shards, i)) == Atoms(Of(others, i))
    ensures Assemble(shards) == Assemble(others)
  {
    forall k | 0 <= k < |Order(shards)|
      ensures Assemble(shards)[k] == Assemble(others)[k]
    {
      CallFromAtoms(Of(shards, Order(shards)[k]));
      CallFromAtoms(Of(others, Order(shards)[k]));
    }
  }

  /** Cutting one shard in two, anywhere in a stream, is such a change. */
  lemma SplitAnywhere(before: seq<Shard>, s: Shard, cut: nat, after: seq<Shard>)
    requires cut <= |s.args|
    ensures
      var head, tail := s.(args := s.args[..cut]), Shard(s.index, "", "", s.args[cut..]);
      Assemble(before + [head, tail] + after) == Assemble(before + [s] + after)
  {
    var head, tail := s.(args := s.args[..cut]), Shard(s.index, "", "", s.args[cut..]);
    var two, one := before + [head, tail], before + [s];
    assert two == before + [head] + [tail];
    OfAppend(before, s, s.index);
    OfAppend(before, head, s.index);
    OfAppend(before + [head], tail, s.index);
    SameTail(two, one, after);
    forall i
      ensures Atoms(Of(two + after, i)) == Atoms(Of(one + after, i))
    {
      OfAppend(before, s, i);
      OfAppend(before, head, i);
      OfAppend(before + [head], tail, i);
      if i == s.index {
        SplitAtoms(Of(before, i), s, cut);
      }
      AtomsOfConcat(two, after, i);
      AtomsOfConcat(one, after, i);
    }
    ShardingIndependence(two + after, one + after);
  }

  lemma SplitAtoms(own: seq<Shard>, s: Shard, cut: nat)
    requires cut <= |s.args|
    ensures
      var head, tail := s.(args := s.args[..cut]), Shard(s.index, "", "", s.args[cut..]);
      Atoms(own + [head] + [tail]) == Atoms(own + [s])
  {
    var head, tail := s.(args := s.args[..cut]), Shard(s.index, "", "", s.args[cut..]);
    AtomsAppend(own, s);
    AtomsAppend(own, head);
    AtomsAppend(own + [head], tail);
    SplitPiece(s, cut);
    Associates(Atoms(own), Piece(head), Piece(tail));
  }

  lemma SplitPiece(s: Shard, cut: nat)
    requires cut <= |s.args|
    ensures Piece(s) == Piece(s.(args := s.args[..cut])) + Piece(Shard(s.index, "", "", s.args[cut..]))
  {
    var head, tail := s.(args := s.args[..cut]), Shard(s.index, "", "", s.args[cut..]);
    assert Header(tail) == [] && Header(head) == Header(s);
    assert Piece(tail) == Chars(tail.args);
    assert Chars(s.args) == Chars(head.args) + Chars(tail.args);
  }

  /** So is letting two shards of different calls change places, once either call has begun. */
  lemma SwapAnywhere(before: seq<Shard>, a: Shard, b: Shard, after: seq<Shard>)
    requires a.index != b.index && (a.index in Order(before) || b.index in Order(before))
    ensures Assemble(before + [a, b] + after) == Assemble(before + [b, a] + after)
  {
    var ab, ba := before + [a, b], before + [b, a];
    assert ab == before + [a] + [b] && ba == before + [b] + [a];
    forall i
      ensures Order(ab) == Order(ba) && Of(ab, i) == Of(ba, i)
    {
      OfAppend(before, a, i);
      OfAppend(before, b, i);
      OfAppend(before + [a], b, i);
      OfAppend(before + [b], a, i);
    }
    SameTail(ab, ba, after);
    forall i
      ensures Atoms(Of(ab + after, i)) == Atoms(Of(ba + after, i))
    {
      AtomsOfConcat(ab, after, i);
      AtomsOfConcat(ba, after, i);
    }
    ShardingIndependence(ab + after, ba + after);
  }

  lemma {:induction false} SameTail(a: seq<Shard>, b: seq<Shard>, after: seq<Shard>)
    requires Order(a) == Order(b)
    ensures Order(a + after) == Order(b + after)
  {
    if after == [] {
      assert a + after == a && b + after == b;
    } else {
      var shorter := after[..|after| - 1];
      SameTail(a, b, shorter);
      assert (a + after)[..|a + after| - 1] == a + shorter;
      assert (b + after)[..|b + after| - 1] == b + shorter;
    }
  }

  lemma {:induction false} AtomsOfConcat(a: seq<Shard>, b: seq<Shard>, i: int)
    ensures Atoms(Of(a + b, i)) == Atoms(Of(a, i)) + Atoms(Of(b, i))
  {
    if b == [] {
      assert a + b == a;
    } else {
      var shorter, last := b[..|b| - 1], b[|b| - 1];
      AtomsOfConcat(a, shorter, i);
      assert a + b == a + shorter + [last] && b == shorter + [last];
      AtomsOfAppend(a + shorter, last, i);
      AtomsOfAppend(shorter, last, i);
      Associates(Atoms(Of(a, i)), Atoms(Of(shorter, i)), if last.index == i then Piece(last) else []);
    }
  }

  lemma AtomsOfAppend(shards: seq<Shard>, s: Shard, i: int)
    ensures Atoms(Of(shards + [s], i)) == Atoms(Of(shards, i)) + if s.index == i then Piece(s) else []
  {
    OfAppend(shards, s, i);
    AtomsAppend(Of(shards, i), s);
  }

  lemma OfAppend(shards: seq<Shard>, s: Shard, i: int)
    ensures Of(shards + [s], i) == Of(shards, i) + if s.index == i then [s] else []
    ensures Order(shards + [s]) == if s.index in Order(shards) then Order(shards) else Order(shards) + [s.index]
  {
    assert (shards + [s])[..|shards|] == shards;
  }

  lemma AtomsAppend(own: seq<Shard>, s: Shard)
    ensures Atoms(own + [s]) == Atoms(own) + Piece(s)
  {
    assert (own + [s])[..|own|] == own;
  }

  lemma CallAppend(own: seq<Shard>, s: Shard)
    ensures CallOf(own + [s]) == ToolCall(
      if s.id != "" then s.id else LastId(own),
      if s.name != "" then s.name else LastName(own),
      Fragments(own) + s.args)
  {
    assert (own + [s])[..|own|] == own;
  }
}
