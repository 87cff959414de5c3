/** The step-C rule shared by the store's validator and the workflow route:
    three tag dimensions must each have at least one tag selected, and the
    messages both validators attach to a missing field. */
module RequiredTags {
  import Text

  const RequiredDimensions: seq<string> := ["authorship", "disclosure-risk", "intended-use"]

  const RatingMessage: string := "Please provide a relationship rating"

  const CategoryMessage: string := "Please select a primary category"

  /** `Please select at least one ${dim.replace('-', ' ')} tag`. */
  function MissingTagMessage(dim: string): string
  {
    "Please select at least one " + Text.ReplaceFirst(dim, '-', ' ') + " tag"
  }

  /** A dimension name without a hyphen appears in its message unchanged. */
  lemma UnhyphenatedName(name: string)
    requires '-' !in name
    ensures MissingTagMessage(name) == "Please select at least one " + name + " tag"
  {
    Text.ReplaceFirstAbsent(name, '-', ' ');
  }

  /** The message for `authorship`. */
  lemma MissingTagMessageAuthorship()
    ensures MissingTagMessage("authorship") == "Please select at least one authorship tag"
  {
    var name := "author" + "ship";
    assert name == "authorship";
    Text.ReplaceFirstAbsent(name, '-', ' ');
    assert "Please select at least one " + name + " tag" == "Please select at least one authorship tag";
  }

  /** A hyphenated dimension name is spelled with a space in its message. */
  lemma MissingTagMessageDisclosure()
    ensures MissingTagMessage("disclosure-risk") == "Please select at least one disclosure risk tag"
  {
    var name := "disclosure" + "-" + "risk";
    assert name == "disclosure-risk";
    SpacedName("disclosure", "risk");
    assert "Please select at least one " + "disclosure" + " " + "risk" + " tag"
        == "Please select at least one disclosure risk tag";
  }

  lemma MissingTagMessageIntendedUse()
    ensures MissingTagMessage("intended-use") == "Please select at least one intended use tag"
  {
    var name := "intended" + "-" + "use";
    assert name == "intended-use";
    SpacedName("intended", "use");
    assert "Please select at least one " + "intended" + " " + "use" + " tag"
        == "Please select at least one intended use tag";
  }

  lemma SpacedName(first: string, second: string)
    requires '-' !in first
    ensures MissingTagMessage(first + "-" + second)
         == "Please select at least one " + first + " " + second + " tag"
  {
    Text.ReplaceFirstAfter(first, '-', ' ', second);
    assert first + "-" + second == first + ['-'] + second;
    assert first + " " + second == first + [' '] + second;
  }

  /** The errors the step-C `forEach` has recorded after visiting `dims`,
      where `missing` says which dimensions count as unselected. The store
      and the route each run this loop with their own notion of "missing". */
  function TagErrors(missing: string -> bool, dims: seq<string>): map<string, string>
  {
    if dims == [] then map[]
    else
      var d := dims[|dims| - 1];
      var before := TagErrors(missing, dims[..|dims| - 1]);
      if missing(d) then before[d := MissingTagMessage(d)] else before
  }

  /** The step-C errors are keyed by exactly the visited dimensions that are
      missing, each with its message. */
  lemma {:induction false} TagErrorsExact(missing: string -> bool, dims: seq<string>)
    ensures forall d :: d in TagErrors(missing, dims) <==> d in dims && missing(d)
    ensures forall d :: d in TagErrors(missing, dims) ==> TagErrors(missing, dims)[d] == MissingTagMessage(d)
  {
    if dims != [] {
      TagErrorsExact(missing, dims[..|dims| - 1]);
      assert dims == dims[..|dims| - 1] + [dims[|dims| - 1]];
    }
  }

  /** Two validators that agree on which visited dimensions are missing
      record the same errors. */
  lemma {:induction false} TagErrorsAgree(m1: string -> bool, m2: string -> bool, dims: seq<string>)
    requires forall d :: d in dims ==> m1(d) == m2(d)
    ensures TagErrors(m1, dims) == TagErrors(m2, dims)
  {
    if dims != [] {
      TagErrorsAgree(m1, m2, dims[..|dims| - 1]);
    }
  }
}
