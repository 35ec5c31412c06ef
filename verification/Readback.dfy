/** What a reader of a generated project finds in it. */
module Readback {
  import opened Text
  import opened Printer
  import opened ProjectModel
  import opened ProjectGraph

  /** The objects describe the graph of the calls: one object for each call, in their order, under an
      identifier of its own; whatever an object refers to comes before it, and every object but
      the last, the project, is referred to by a later one. */
  ghost predicate Describes(objects: seq<Entry>, hash: string -> string, calls: seq<Call>) {
    && objects == Objects(hash, calls)
    && (forall i, j | 0 <= i < j < |objects| :: objects[i].key != objects[j].key)
    && (forall i, k | 0 <= i < |calls| && k in Targets(calls[i]) :: Before(objects, i, hash(k)))
    && (forall i | 0 <= i < |calls| - 1 :: After(calls, i))
  }

  predicate Before(objects: seq<Entry>, i: nat, ident: string)
    requires i <= |objects|
  {
    exists j | 0 <= j < i :: objects[j].key == ident
  }

  predicate After(calls: seq<Call>, i: nat)
    requires i < |calls|
  {
    exists j | i < j < |calls| :: calls[i].key in Targets(calls[j])
  }

  /** The text is the header and one document, nothing else; its root is the last object. */
  ghost predicate Reads(text: string, hash: string -> string, p: Inputs, objects: seq<Entry>) {
    && HEADER <= text && HEADER == "// !$*UTF8*$!\n"
    && Parse(text[|HEADER|..]) == Some(Parsed(Dict(DocumentEntries(hash, objects)), "\n"))
    && objects != []
    && objects[|objects| - 1].key == hash("project")
    && Describes(objects, hash, Calls(p))
  }

  lemma AfterHeader(body: string)
    ensures HEADER <= HEADER + body + "\n" && (HEADER + body + "\n")[|HEADER|..] == body + "\n"
  {
  }

  /** The parser recovers the document, whatever the hash. */
  lemma DocumentReads(hash: string -> string, p: Inputs, text: string)
    requires text == ProjectText(hash, p)
    ensures HEADER <= text && Parse(text[|HEADER|..]) == Some(Parsed(Document(hash, p), "\n"))
  {
    AfterHeader(Render(Document(hash, p), 0));
    RoundTrip(Document(hash, p), 0, "\n");
  }

  lemma KeysDiffer(hash: string -> string, calls: seq<Call>, i: nat, j: nat)
    requires Good(calls) && InjectiveOn(hash, calls) && i < j < |calls|
    ensures hash(calls[i].key) != hash(calls[j].key)
  {
    KeyBefore(calls, i, j);
  }

  lemma ReferenceBefore(hash: string -> string, calls: seq<Call>, i: nat, k: string)
    requires Good(calls) && i < |calls| && k in Targets(calls[i])
    ensures Before(Objects(hash, calls), i, hash(k))
  {
    assert k in Keys(calls[..i]);
    var j :| 0 <= j < |calls[..i]| && calls[..i][j].key == k;
    assert Objects(hash, calls)[j].key == hash(k);
  }

  lemma ObjectsDescribe(hash: string -> string, calls: seq<Call>)
    requires Good(calls) && InjectiveOn(hash, calls)
    requires forall i | 0 <= i < |calls| - 1 :: After(calls, i)
    ensures Describes(Objects(hash, calls), hash, calls)
  {
    var objects := Objects(hash, calls);
    forall i, j | 0 <= i < j < |objects|
      ensures objects[i].key != objects[j].key
    {
      KeysDiffer(hash, calls, i, j);
    }
    forall i, k | 0 <= i < |calls| && k in Targets(calls[i])
      ensures Before(objects, i, hash(k))
    {
      ReferenceBefore(hash, calls, i, k);
    }
  }

  lemma LastIsProject(hash: string -> string, p: Inputs)
    ensures Calls(p) != [] && Calls(p)[|Calls(p)| - 1].key == "project"
  {
    assert ProjectCalls(p)[3] == ProjectCall();
    LastOf(FileCalls(p.listing), DependencyCalls(p) + PackageCalls(p) + PhaseCalls(p) + TargetCalls(p), ProjectCalls(p));
  }

  lemma LastOf(s: seq<Call>, front: seq<Call>, back: seq<Call>)
    requires back != []
    ensures var all := s + (front + back); all != [] && all[|all| - 1] == back[|back| - 1]
  {
  }

  lemma AllAfter(p: Inputs)
    requires Unique(p.listing)
    ensures forall i | 0 <= i < |Calls(p)| - 1 :: After(Calls(p), i)
  {
    forall i | 0 <= i < |Calls(p)| - 1
      ensures After(Calls(p), i)
    {
      AllReferenced(p, i);
    }
  }

  /** For every listing of distinct names and every hash that tells the keys of the run apart, the
      text of a run reads back as the closed, acyclic graph of its calls, with the project as its root. */
  lemma ProjectReads(hash: string -> string, p: Inputs, text: string)
    requires Unique(p.listing) && CollisionFree(hash, p.listing)
    requires text == ProjectText(hash, p)
    ensures Reads(text, hash, p, Objects(hash, Calls(p)))
  {
    DocumentReads(hash, p, text);
    CallsGood(p);
    RunKeysInjective(hash, p);
    NothingOverwritten(hash, Calls(p));
    AllAfter(p);
    ObjectsDescribe(hash, Calls(p));
    LastIsProject(hash, p);
  }

  /** The text parses as the document; with distinct names and a hash that tells the keys of the run
      apart, the document describes the graph of the run. */
  ghost predicate ReadsBack(hash: string -> string, p: Inputs, text: string) {
    && HEADER <= text
    && Parse(text[|HEADER|..]) == Some(Parsed(Document(hash, p), "\n"))
    && (Unique(p.listing) && CollisionFree(hash, p.listing) ==> Reads(text, hash, p, Objects(hash, Calls(p))))
  }

  lemma TextReads(hash: string -> string, p: Inputs, text: string)
    requires text == ProjectText(hash, p)
    ensures ReadsBack(hash, p, text)
  {
    DocumentReads(hash, p, text);
    if Unique(p.listing) && CollisionFree(hash, p.listing) {
      ProjectReads(hash, p, text);
    }
  }
}
