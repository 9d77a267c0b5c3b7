/** A jar as the loader sees it: its entries in enumeration order. */
module Jars {
  import opened Wrappers

  /** One entry: its full path inside the jar and its raw (undecoded) bytes. */
  datatype JarEntry = JarEntry(name: string, content: string)

  type Jar = seq<JarEntry>

  /** Index of the first entry, in enumeration order, whose name satisfies `p`. */
  function FirstMatch(jar: Jar, p: string -> bool): (r: Option<nat>)
    ensures r.Some? ==> r.value < |jar| && p(jar[r.value].name)
    ensures r.Some? ==> forall j :: 0 <= j < r.value ==> !p(jar[j].name)
    ensures r.None? ==> forall j :: 0 <= j < |jar| ==> !p(jar[j].name)
  {
    if |jar| == 0 then None
    else if p(jar[0].name) then Some(0)
    else match FirstMatch(jar[1..], p)
      case None => None
      case Some(k) => Some(k + 1)
  }

  /** A position that matches with no match before it is the first match. */
  lemma FirstMatchIsUnique(jar: Jar, p: string -> bool, k: nat)
    requires k < |jar| && p(jar[k].name)
    requires forall j :: 0 <= j < k ==> !p(jar[j].name)
    ensures FirstMatch(jar, p) == Some(k)
  {
  }

  /** Entries after a match never change the result. */
  lemma {:induction false} FirstMatchIgnoresLaterEntries(jar: Jar, rest: Jar, p: string -> bool)
    requires FirstMatch(jar, p).Some?
    ensures FirstMatch(jar + rest, p) == FirstMatch(jar, p)
  {
    var k := FirstMatch(jar, p).value;
    forall j | 0 <= j < k ensures !p((jar + rest)[j].name) {
      assert (jar + rest)[j] == jar[j];
    }
    assert (jar + rest)[k] == jar[k];
    FirstMatchIsUnique(jar + rest, p, k);
  }

  /**
   * `JarFile.getJarEntry(name)`, restricted to exact names: the first entry
   * whose name is `name`. The JDK lookup also accepts an entry named
   * `name + "/"`; that fallback is not modelled.
   */
  function GetJarEntry(jar: Jar, name: string): (r: Option<nat>)
    ensures r.Some? ==> r.value < |jar| && jar[r.value].name == name
    ensures r.None? ==> forall j :: 0 <= j < |jar| ==> jar[j].name != name
  {
    FirstMatch(jar, n => n == name)
  }
}
