/** A legal archive in which the waits do not add up (src/cord_runtime/viewer.py:205-212). */
module TimelineExamples {
  import opened Basics
  import opened Spans
  import opened ArchiveQuery
  import opened Viewer
  import opened Timeline
  import opened Samples

  const RUN: Span := SampleRun(1, 11)

  const PAUSED: Span := SampleStep("s", "awaiting_approval", 2, 3)

  const FROM_PAUSE: Value := Str("s")

  function Resumes(id: string, start: nat, end: nat): Span {
    var step := SampleStep(id, "passed", start, end);
    step.(attributes := step.attributes[ResumedFromKey := FROM_PAUSE])
  }

  /** One pause, resumed by two Steps. */
  const ARCHIVE: SpanMap :=
    map["r" := Entry(RUN, ""), "s" := Entry(PAUSED, ""), "x" := Entry(Resumes("x", 9, 10), ""), "y" := Entry(Resumes("y", 10, 11), "")]

  const TREE: RunTree := RunTree("r", [Node("s", [], []), Node("x", [], []), Node("y", [], [])])

  lemma Roles()
    ensures IsKind(ARCHIVE, "r", RunKind) && !IsKind(ARCHIVE, "r", StepKind) && forall id :: !IsKind(ARCHIVE, id, AttemptKind)
    ensures IsKind(ARCHIVE, "s", StepKind) && IsKind(ARCHIVE, "x", StepKind) && IsKind(ARCHIVE, "y", StepKind)
    ensures ParentOf(ARCHIVE, "s", "r") && ParentOf(ARCHIVE, "x", "r") && ParentOf(ARCHIVE, "y", "r")
  {
  }

  lemma NamesDiffer()
    ensures "s" != "r" && "x" != "r" && "y" != "r" && "s" != "x" && "s" != "y" && "x" != "y"
  {
    assert "s"[0] != "r"[0] && "x"[0] != "r"[0] && "y"[0] != "r"[0] && "s"[0] != "x"[0] && "s"[0] != "y"[0] && "x"[0] != "y"[0];
  }

  lemma StepsHang()
    ensures UnderRun(PAUSED, "awaiting_approval") && UnderRun(Resumes("x", 9, 10), "passed") && UnderRun(Resumes("y", 10, 11), "passed")
    ensures "passed" in STEP_OUTCOMES && "awaiting_approval" in STEP_OUTCOMES
  {
    assert STEP_OUTCOMES[0] == "passed" && STEP_OUTCOMES[3] == "awaiting_approval";
  }

  lemma OnlyThese(id: string)
    requires id in ARCHIVE
    ensures id == "r" || id == "s" || id == "x" || id == "y"
  {
  }

  lemma ArchiveIsLegal()
    ensures Legal(ARCHIVE)
  {
    SampleRunIsLegal(ARCHIVE, 1, 11);
    StepsHang();
    NamesDiffer();
    SampleStepIsLegal(ARCHIVE, "s", "awaiting_approval", 1, 11);
    SampleStepIsLegal(ARCHIVE, "x", "passed", 1, 11);
    SampleStepIsLegal(ARCHIVE, "y", "passed", 1, 11);
    forall id | id in ARCHIVE
      ensures LegalSpan(ARCHIVE, id)
    {
      OnlyThese(id);
    }
  }

  lemma StepsAreListed()
    ensures ListsUnder(ARCHIVE, "r", StepKind, ["s", "x", "y"])
  {
    Roles();
    NamesDiffer();
    var ids := ["s", "x", "y"];
    assert ids[0] == "s" && ids[1] == "x" && ids[2] == "y";
  }

  lemma TreeIsRecorded()
    ensures IsRunTree(ARCHIVE, TREE)
  {
    StepsAreListed();
    NamesDiffer();
    assert Ids(TREE.steps) == ["s", "x", "y"];
    forall i | 0 <= i < 3
      ensures IsTree(ARCHIVE, TREE.steps[i])
    {
      LeafIsTree(TREE.steps[i].id);
    }
  }

  /** Nothing hangs under a Step here. */
  lemma LeafIsTree(id: string)
    requires id != "r"
    ensures IsTree(ARCHIVE, Node(id, [], []))
  {
    Roles();
    assert Ids([]) == [];
  }

  lemma WaitsAre()
    ensures WaitOf(ARCHIVE, "s") == 0 && WaitOf(ARCHIVE, "x") == 6 && WaitOf(ARCHIVE, "y") == 7
  {
    Roles();
    NamesDiffer();
  }

  lemma LeafFirst(id: string, rest: seq<Node>)
    ensures Flatten([Node(id, [], [])] + rest) == [id] + Flatten(rest)
    ensures FlattenAttempts([Node(id, [], [])] + rest) == FlattenAttempts(rest)
  {
    var nodes := [Node(id, [], [])] + rest;
    assert nodes[1..] == rest;
    assert Flatten([]) == [] && FlattenAttempts([]) == [];
    assert Flatten(nodes) == [id] + [] + Flatten(rest);
    assert FlattenAttempts(nodes) == [] + [] + FlattenAttempts(rest);
  }

  lemma FlattenedIs()
    ensures Flatten(TREE.steps) == ["s", "x", "y"] && FlattenAttempts(TREE.steps) == []
  {
    var s, x, y := Node("s", [], []), Node("x", [], []), Node("y", [], []);
    LeafFirst("y", []);
    LeafFirst("x", [y]);
    LeafFirst("s", [x, y]);
    assert [y] + [] == [y] && [x] + [y] == [x, y] && [s] + [x, y] == TREE.steps;
    assert ["y"] + [] == ["y"] && ["x"] + ["y"] == ["x", "y"] && ["s"] + ["x", "y"] == ["s", "x", "y"];
  }

  lemma EndIs()
    ensures RunEnd(ARCHIVE, TREE) == 11
  {
    FlattenedIs();
    NamesDiffer();
    assert EndOf(ARCHIVE, "r") == 11 && EndOf(ARCHIVE, "s") == 3 && EndOf(ARCHIVE, "x") == 10 && EndOf(ARCHIVE, "y") == 11;
    assert forall id | id in ["s", "x", "y"] :: id == "s" || id == "x" || id == "y";
  }

  /** The archive is accepted, yet waiting counts 13 of a Run that lasts 10, and nothing is left for executing. */
  lemma WaitsExceedTheRun()
    ensures Legal(ARCHIVE) && IsRunTree(ARCHIVE, TREE)
    ensures RunEnd(ARCHIVE, TREE) - StartOf(ARCHIVE, TREE.id) == 10
    ensures RunWait(ARCHIVE, TREE) == 13 && RunExecution(ARCHIVE, TREE) == 0
  {
    ArchiveIsLegal();
    TreeIsRecorded();
    FlattenedIs();
    EndIs();
    WaitsAre();
    var ids := ["s", "x", "y"];
    assert ids[..2] == ["s", "x"] && ["s", "x"][..1] == ["s"] && ["s"][..0] == [];
    assert SumWaits(ARCHIVE, ["s"]) == 0;
    assert SumWaits(ARCHIVE, ["s", "x"]) == 6;
  }
}
