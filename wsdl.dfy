/**
  The `Wsdl` descriptor: one named entry of a `wsdlToJava` task, with the WSDL
  file to import and an optional target package. All three fields are mutable
  and may be null (`None`).
 */
module WsdlDescriptor {
  import opened Wrappers
  import opened Files

  /** How Java's string concatenation renders a possibly null string. */
  function JavaString(s: Option<string>): (r: string)
    ensures s.Some? ==> r == s.value
    ensures s.None? ==> r == "null"
  {
    match s
    case Some(v) => v
    case None => "null"
  }

  /** The fixed text that `toString` puts between the name and the package. */
  const ToStringInfix: string := " WSDL to "

  class Wsdl {
    var name: Option<string>
    var wsdl: Option<File>
    var packageName: Option<string>

    /** `new Wsdl()`: every field is null. */
    constructor ()
      ensures name.None? && wsdl.None? && packageName.None?
    {
      name, wsdl, packageName := None, None, None;
    }

    /** `new Wsdl(name)`, as the named container creates entries. */
    constructor Named(name: Option<string>)
      ensures this.name == name && wsdl.None? && packageName.None?
    {
      this.name, wsdl, packageName := name, None, None;
    }

    method GetName() returns (r: Option<string>)
      ensures r == name
    {
      r := name;
    }

    method SetName(name: Option<string>)
      modifies this`name
      ensures this.name == name
      ensures wsdl == old(wsdl) && packageName == old(packageName)
    {
      this.name := name;
    }

    method GetWsdl() returns (r: Option<File>)
      ensures r == wsdl
    {
      r := wsdl;
    }

    method SetWsdl(wsdl: Option<File>)
      modifies this`wsdl
      ensures this.wsdl == wsdl
      ensures name == old(name) && packageName == old(packageName)
    {
      this.wsdl := wsdl;
    }

    method GetPackageName() returns (r: Option<string>)
      ensures r == packageName
    {
      r := packageName;
    }

    method SetPackageName(packageName: Option<string>)
      modifies this`packageName
      ensures this.packageName == packageName
      ensures name == old(name) && wsdl == old(wsdl)
    {
      this.packageName := packageName;
    }

    /**
      `toString()`: the rendered name, then " WSDL to ", then the rendered
      package name; the file plays no part.
     */
    function ToString(): (r: string)
      reads this
      ensures |r| == |JavaString(name)| + |ToStringInfix| + |JavaString(packageName)|
      ensures r[..|JavaString(name)|] == JavaString(name)
      ensures r[|JavaString(name)|..|r| - |JavaString(packageName)|] == ToStringInfix
      ensures r[|r| - |JavaString(packageName)|..] == JavaString(packageName)
    {
      JavaString(name) + ToStringInfix + JavaString(packageName)
    }
  }

  /**
    Setting a field and reading it back gives the value set, and each setter
    leaves the other two fields as they were.
   */
  method SettersRoundTrip(w: Wsdl, n: Option<string>, f: Option<File>, p: Option<string>)
    modifies w
    ensures w.name == n && w.wsdl == f && w.packageName == p
  {
    ghost var f0, p0 := w.wsdl, w.packageName;
    w.SetName(n);
    assert w.wsdl == f0 && w.packageName == p0;
    var n' := w.GetName();
    assert n' == n;

    ghost var n1 := w.name;
    w.SetWsdl(f);
    assert w.name == n1 && w.packageName == p0;
    var f' := w.GetWsdl();
    assert f' == f;

    w.SetPackageName(p);
    assert w.name == n && w.wsdl == f;
    var p' := w.GetPackageName();
    assert p' == p;
  }

  /**
    Because a null field renders as "null", `toString` cannot tell an unset
    package from the package literally named "null".
   */
  lemma ToStringNullAmbiguous(a: Wsdl, b: Wsdl)
    requires a.name == b.name
    requires a.packageName == None && b.packageName == Some("null")
    ensures a.ToString() == b.ToString()
  {
  }

  /**
    Two entries whose names render alike print alike exactly when their
    package names render alike.
   */
  lemma ToStringDeterminesPackage(a: Wsdl, b: Wsdl)
    requires JavaString(a.name) == JavaString(b.name)
    ensures a.ToString() == b.ToString() <==> JavaString(a.packageName) == JavaString(b.packageName)
  {
    var ra, rb := a.ToString(), b.ToString();
    if ra == rb {
      assert ra[|ra| - |JavaString(a.packageName)|..] == JavaString(a.packageName);
      assert rb[|rb| - |JavaString(b.packageName)|..] == JavaString(b.packageName);
    }
  }
}
