/** The code sink: the generated C++ text, built by appending indented fragments to a
    fixed preamble. The output file is modelled as the string written so far. */
module CodeGen {

  /** One call of WriteCode: an indentation depth and the text written after it. */
  datatype Fragment = Fragment(tabs: int, text: string)

  /** The number of tab characters `tabs` produces: the write loop runs zero times for
      a negative depth. */
  function Depth(tabs: int): nat
  {
    if tabs > 0 then tabs else 0
  }

  /** `n` tab characters. */
  function Tabs(n: nat): (t: string)
    ensures |t| == n
    ensures forall i :: 0 <= i < n ==> t[i] == '\t'
  {
    if n == 0 then "" else Tabs(n - 1) + "\t"
  }

  /** WriteCode: the output after appending the indentation for `tabs` and `code`. */
  function WriteCode(out: string, tabs: int, code: string): (r: string)
    ensures |r| == |out| + Depth(tabs) + |code|
    ensures r[..|out|] == out
    ensures forall i :: |out| <= i < |out| + Depth(tabs) ==> r[i] == '\t'
    ensures r[|out| + Depth(tabs)..] == code
  {
    out + Tabs(Depth(tabs)) + code
  }

  /** WriteCode as the source writes it: one tab per loop iteration, then the code. */
  method WriteCodeLoop(out: string, tabs: int, code: string) returns (r: string)
    ensures r == WriteCode(out, tabs, code)
  {
    r := out;
    var t := 0;
    while t < tabs
      invariant 0 <= t <= Depth(tabs)
      invariant r == out + Tabs(t)
    {
      r := r + "\t";
      t := t + 1;
    }
    r := r + code;
  }

  /** The text one fragment contributes to the output. */
  function Render(f: Fragment): string
  {
    Tabs(Depth(f.tabs)) + f.text
  }

  /** The text of a sequence of fragments, in order. */
  function Concat(frags: seq<Fragment>): string
  {
    if frags == [] then "" else Render(frags[0]) + Concat(frags[1..])
  }

  /** The output after calling WriteCode once per fragment, in call order. */
  function WriteAll(out: string, frags: seq<Fragment>): string
    decreases |frags|
  {
    if frags == [] then out
    else WriteAll(WriteCode(out, frags[0].tabs, frags[0].text), frags[1..])
  }

  /** A run of WriteCode calls writes the concatenation of their fragments after
      the previous output, which it leaves untouched. */
  lemma {:induction false} WriteAllAppends(out: string, frags: seq<Fragment>)
    ensures WriteAll(out, frags) == out + Concat(frags)
    decreases |frags|
  {
    if frags != [] {
      var out' := WriteCode(out, frags[0].tabs, frags[0].text);
      assert out' == out + Render(frags[0]);
      WriteAllAppends(out', frags[1..]);
    }
  }

  /** Concatenation distributes over appending fragment sequences. */
  lemma {:induction false} ConcatAppend(a: seq<Fragment>, b: seq<Fragment>)
    ensures Concat(a + b) == Concat(a) + Concat(b)
    decreases |a|
  {
    if a == [] {
      assert a + b == b;
    } else {
      assert (a + b)[1..] == a[1..] + b;
      ConcatAppend(a[1..], b);
    }
  }

  /** The preamble lines the generator writes when it opens the output file. */
  const Banner := "// Autogenerated PL460 to C++ Code\n"
  const IncludeIostream := "#include <iostream>\n"
  const IncludeObject := "#include \"Object.h\"\n"
  const UsingStd := "using namespace std;\n\n"

  function FileLine(cppName: string): string
  {
    "// File: " + cppName + "\n\n"
  }

  function Preamble(cppName: string): string
  {
    Banner + FileLine(cppName) + IncludeIostream + IncludeObject + UsingStd
  }

  /** The whole generated file for the input prefix `prefix`. */
  function Generate(prefix: string, frags: seq<Fragment>): (code: string)
    ensures code == Preamble(prefix + ".cpp") + Concat(frags)
  {
    WriteAllAppends(Preamble(prefix + ".cpp"), frags);
    WriteAll(Preamble(prefix + ".cpp"), frags)
  }

  /** Whatever is translated, the file starts with the fixed preamble lines, in order:
      the banner comment, the file-name comment, the two includes and the using line. */
  lemma GenerateStartsWithPreamble(prefix: string, frags: seq<Fragment>)
    ensures var code := Generate(prefix, frags);
      var file := FileLine(prefix + ".cpp");
      var p1 := |Banner|;
      var p2 := p1 + |file|;
      var p3 := p2 + |IncludeIostream|;
      var p4 := p3 + |IncludeObject|;
      && |code| >= p4 + |UsingStd|
      && code[..p1] == Banner
      && code[p1..p2] == file
      && code[p2..p3] == IncludeIostream
      && code[p3..p4] == IncludeObject
      && code[p4..p4 + |UsingStd|] == UsingStd
  {
    var code := Generate(prefix, frags);
    var file := FileLine(prefix + ".cpp");
    var tail := Concat(frags);
    SliceOfConcat([], Banner, file + IncludeIostream + IncludeObject + UsingStd + tail);
    SliceOfConcat(Banner, file, IncludeIostream + IncludeObject + UsingStd + tail);
    SliceOfConcat(Banner + file, IncludeIostream, IncludeObject + UsingStd + tail);
    SliceOfConcat(Banner + file + IncludeIostream, IncludeObject, UsingStd + tail);
    SliceOfConcat(Banner + file + IncludeIostream + IncludeObject, UsingStd, tail);
  }

  /** The middle part of a three-way concatenation is found at its offset. */
  lemma SliceOfConcat<T>(pre: seq<T>, mid: seq<T>, post: seq<T>)
    ensures (pre + mid + post)[|pre|..|pre| + |mid|] == mid
    ensures pre + (mid + post) == pre + mid + post
  {
  }
}
