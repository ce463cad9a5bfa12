/**
 * The seed data standing in for a database (src/lib/mock-data.ts): three
 * users, five projects whose products and attachments are produced by two
 * generators, and the flattened list of every product.
 */
module MockData {
  import opened Wrappers
  import opened Definitions
  import opened ArrayOps

  /** The decimal digit for `d`. */
  function DigitChar(d: nat): (c: char)
    requires d < 10
    ensures '0' <= c <= '9'
    ensures c as int == '0' as int + d
  {
    (('0' as int) + d) as char
  }

  /** The digit a character stands for. */
  function DigitValue(c: char): nat
    requires '0' <= c <= '9'
  {
    (c as int) - ('0' as int)
  }

  /** A natural number as JavaScript writes it in a template string. */
  function NatToString(n: nat): (s: string)
    ensures |s| >= 1
    ensures forall i :: 0 <= i < |s| ==> '0' <= s[i] <= '9'
    ensures n < 10 <==> |s| == 1
    ensures n >= 10 ==> s[0] != '0'
    decreases n
  {
    if n < 10 then [DigitChar(n)] else NatToString(n / 10) + [DigitChar(n % 10)]
  }

  /** Reads a non-empty string of decimal digits. */
  function ParseNat(s: string): nat
    requires |s| >= 1 && forall i :: 0 <= i < |s| ==> '0' <= s[i] <= '9'
    decreases |s|
  {
    if |s| == 1 then DigitValue(s[0]) else ParseNat(s[..|s| - 1]) * 10 + DigitValue(s[|s| - 1])
  }

  /** Reading back a written number gives the number. */
  lemma {:induction false} ParseNatToString(n: nat)
    ensures ParseNat(NatToString(n)) == n
    decreases n
  {
    if n >= 10 {
      var s := NatToString(n);
      assert s[..|s| - 1] == NatToString(n / 10);
      ParseNatToString(n / 10);
    }
  }

  /** Different numbers are written differently. */
  lemma NatToStringInjective(m: nat, n: nat)
    requires NatToString(m) == NatToString(n)
    ensures m == n
  {
    ParseNatToString(m);
    ParseNatToString(n);
  }

  /** Different numbers are written differently (the same fact, for callers holding the inequality). */
  lemma NatToStringDistinct(m: nat, n: nat)
    requires m != n
    ensures NatToString(m) != NatToString(n)
  {
    if NatToString(m) == NatToString(n) {
      NatToStringInjective(m, n);
    }
  }

  /** Two strings that agree after a shared prefix agree. */
  lemma SuffixAfterPrefix(prefix: string, a: string, b: string)
    requires prefix + a == prefix + b
    ensures a == b
  {
    assert a == (prefix + a)[|prefix|..];
    assert b == (prefix + b)[|prefix|..];
  }

  /** Two strings that agree before a shared suffix agree. */
  lemma PrefixBeforeSuffix(a: string, b: string, suffix: string)
    requires a + suffix == b + suffix
    ensures a == b
  {
    assert a == (a + suffix)[..|a|];
    assert b == (b + suffix)[..|b|];
  }

  const PdfMimeType := "application/pdf"
  const BytesPerAttachmentStep: nat := 350 * 1024

  /** The `i`-th generated attachment (counting from 0) of an entity. */
  function AttachmentAt(relatedId: string, relatedType: string, i: nat): Attachment {
    Attachment(
      id := "att-" + relatedId + "-" + NatToString(i + 1),
      filename := "documento-anexo-" + NatToString(i + 1) + ".pdf",
      originalName := "Anexo Importante " + NatToString(i + 1) + ".pdf",
      mimeType := PdfMimeType,
      size := (i + 1) * BytesPerAttachmentStep,
      url := "#",
      relatedId := relatedId,
      relatedType := relatedType)
  }

  /** `generateAttachments`: `count` PDF attachments of one entity. */
  function GenerateAttachments(relatedId: string, relatedType: string, count: nat): (r: seq<Attachment>)
    ensures |r| == count
    ensures forall i :: 0 <= i < count ==> r[i] == AttachmentAt(relatedId, relatedType, i)
  {
    seq(count, i requires 0 <= i < count => AttachmentAt(relatedId, relatedType, i))
  }

  /**
   * Generated attachments belong to the entity they were made for, are PDFs
   * whose sizes grow in steps of 350 KiB, and have pairwise distinct ids and
   * file names.
   */
  lemma GeneratedAttachmentsWellFormed(relatedId: string, relatedType: string, count: nat)
    ensures var r := GenerateAttachments(relatedId, relatedType, count);
      && (forall a <- r :: a.relatedId == relatedId && a.relatedType == relatedType && a.mimeType == PdfMimeType)
      && (forall i :: 0 <= i < count ==> r[i].size == (i + 1) * 358400)
      && (forall i, j :: 0 <= i < j < count ==> r[i].id != r[j].id && r[i].filename != r[j].filename)
  {
    var r := GenerateAttachments(relatedId, relatedType, count);
    forall i, j | 0 <= i < j < count
      ensures r[i].id != r[j].id && r[i].filename != r[j].filename
    {
      NatToStringDistinct(i + 1, j + 1);
      if r[i].id == r[j].id {
        SuffixAfterPrefix("att-" + relatedId + "-", NatToString(i + 1), NatToString(j + 1));
      }
      if r[i].filename == r[j].filename {
        assert "documento-anexo-" + NatToString(i + 1) + ".pdf" == "documento-anexo-" + (NatToString(i + 1) + ".pdf");
        assert "documento-anexo-" + NatToString(j + 1) + ".pdf" == "documento-anexo-" + (NatToString(j + 1) + ".pdf");
        SuffixAfterPrefix("documento-anexo-", NatToString(i + 1) + ".pdf", NatToString(j + 1) + ".pdf");
        PrefixBeforeSuffix(NatToString(i + 1), NatToString(j + 1), ".pdf");
      }
    }
  }

  /** The product-type codes the generator cycles through. */
  const ProductTypes: seq<string> := ["ART_OPEN_A1", "PI", "TC_A", "PCD_A1"]

  /** The id of the `i`-th generated product (counting from 0) of a project. */
  function ProductId(projectId: string, i: nat): string {
    "prod-" + projectId + "-" + NatToString(i + 1)
  }

  /** The `i`-th generated product (counting from 0) of a project. */
  function ProductAt(projectId: string, i: nat): Product {
    var productId := ProductId(projectId, i);
    Product(
      id := productId,
      titulo := "Producto Derivado " + NatToString(i + 1),
      descripcion := "Descripción detallada del producto derivado " + NatToString(i + 1) + " del proyecto.",
      productType := ProductTypes[i % |ProductTypes|],
      projectId := projectId,
      isPublic := true,
      attachments := GenerateAttachments(productId, "PRODUCTO", 1),
      imageId := "prod_" + NatToString(i % 2 + 1))
  }

  /** `generateProducts`: `count` products of one project. */
  function GenerateProducts(projectId: string, count: nat): (r: seq<Product>)
    ensures |r| == count
    ensures forall i :: 0 <= i < count ==> r[i] == ProductAt(projectId, i)
  {
    seq(count, i requires 0 <= i < count => ProductAt(projectId, i))
  }

  /**
   * Generated products belong to their project, cycle through the four
   * product types, alternate between the two images, carry exactly one
   * attachment that points back at the product, and have distinct ids.
   */
  lemma GeneratedProductsWellFormed(projectId: string, count: nat)
    ensures var r := GenerateProducts(projectId, count);
      && (forall i :: 0 <= i < count ==>
            && r[i].projectId == projectId && r[i].isPublic
            && r[i].productType == ProductTypes[i % 4]
            && r[i].imageId == (if i % 2 == 0 then "prod_1" else "prod_2")
            && |r[i].attachments| == 1
            && r[i].attachments[0].relatedId == r[i].id
            && r[i].attachments[0].relatedType == "PRODUCTO")
      && (forall i, j :: 0 <= i < j < count ==> r[i].id != r[j].id)
  {
    var r := GenerateProducts(projectId, count);
    assert NatToString(1) == "1" && NatToString(2) == "2";
    forall i, j | 0 <= i < j < count ensures r[i].id != r[j].id {
      NatToStringDistinct(i + 1, j + 1);
      if r[i].id == r[j].id {
        SuffixAfterPrefix("prod-" + projectId + "-", NatToString(i + 1), NatToString(j + 1));
      }
    }
  }

  const MockUsers: seq<User> := [
    User("user-1", "admin@ctei.com", "Admin", "Nexus", Some("CTeI"), Administrador, true),
    User("user-2", "researcher@ctei.com", "Marie", "Curie", Some("Universidad de la Innovación"), Investigador, true),
    User("user-3", "community@ctei.com", "Carl", "Sagan", Some("Público General"), Comunidad, true)
  ]

  /**
   * `mockUsers.find(u => u.id === id)!` finds a user for both lead
   * investigator ids the seed projects use, so the non-null assertion holds.
   */
  lemma LeadInvestigatorsFound()
    ensures Find(MockUsers, (u: User) => u.id == "user-2") == Some(MockUsers[1])
    ensures Find(MockUsers, (u: User) => u.id == "user-3") == Some(MockUsers[2])
  {
    var f2 := (u: User) => u.id == "user-2";
    var f3 := (u: User) => u.id == "user-3";
    assert !f2(MockUsers[0]) && f2(MockUsers[1]);
    assert !f3(MockUsers[0]) && !f3(MockUsers[1]) && f3(MockUsers[2]);
    assert MockUsers[1..][0] == MockUsers[1] && MockUsers[1..][1..] == MockUsers[2..];
  }

  /** The seed users' ids are distinct. */
  lemma MockUserIdsDistinct()
    ensures forall i, j :: 0 <= i < j < |MockUsers| ==> MockUsers[i].id != MockUsers[j].id
  {
  }

  /**
   * The five seed projects, in order. Their prose (the abstract, the
   * description and the three AI texts) is written as "": only whether each
   * is present is kept. The lead investigator is the seed user with the
   * stated id (see LeadInvestigatorsFound).
   */
  const MockProjects: seq<Project> := [
    Project(
      id := "proj-1",
      titulo := "Desarrollo de un Nuevo Material Superconductor a Temperatura Ambiente",
      resumen := "",
      presupuesto := Some(1500000.0),
      estado := EnCurso,
      entidadProponente := "Universidad de la Innovación",
      isPublic := true,
      leadInvestigatorId := "user-2",
      leadInvestigator := MockUsers[1],
      collaborators := [],
      products := GenerateProducts("proj-1", 2),
      attachments := GenerateAttachments("proj-1", "PROYECTO", 2),
      description := Some(""),
      imageId := "proj_1",
      aiScore := Some(95.0),
      aiSummary := Some(""),
      aiRationale := Some(""),
      aiRecommendations := Some("")),
    Project(
      id := "proj-2",
      titulo := "Inteligencia Artificial para el Diagnóstico Temprano de Enfermedades Neurodegenerativas",
      resumen := "",
      presupuesto := Some(750000.0),
      estado := Propuesto,
      entidadProponente := "Centro de Investigación en Salud Digital",
      isPublic := true,
      leadInvestigatorId := "user-2",
      leadInvestigator := MockUsers[1],
      collaborators := [],
      products := GenerateProducts("proj-2", 1),
      attachments := [],
      description := Some(""),
      imageId := "proj_2",
      aiScore := Some(88.0),
      aiSummary := Some(""),
      aiRationale := Some(""),
      aiRecommendations := Some("")),
    Project(
      id := "proj-3",
      titulo := "Plataforma de Ciencia Ciudadana para el Monitoreo de la Biodiversidad Urbana",
      resumen := "",
      presupuesto := Some(300000.0),
      estado := Finalizado,
      entidadProponente := "Fundación ConCiencia",
      isPublic := true,
      leadInvestigatorId := "user-2",
      leadInvestigator := MockUsers[1],
      collaborators := [],
      products := GenerateProducts("proj-3", 3),
      attachments := GenerateAttachments("proj-3", "PROYECTO", 1),
      description := Some(""),
      imageId := "proj_3",
      aiScore := Some(92.0),
      aiSummary := Some(""),
      aiRationale := Some(""),
      aiRecommendations := Some("")),
    Project(
      id := "proj-4",
      titulo := "Tecnología Blockchain para la Trazabilidad de la Cadena de Suministro de Café",
      resumen := "",
      presupuesto := Some(900000.0),
      estado := EnCurso,
      entidadProponente := "Cooperativa de Caficultores Tech",
      isPublic := false,
      leadInvestigatorId := "user-2",
      leadInvestigator := MockUsers[1],
      collaborators := [],
      products := GenerateProducts("proj-4", 1),
      attachments := [],
      description := Some(""),
      imageId := "proj_4",
      aiScore := Some(78.0),
      aiSummary := Some(""),
      aiRationale := Some(""),
      aiRecommendations := Some("")),
    Project(
      id := "proj-5",
      titulo := "Nuevo Proyecto de Prueba",
      resumen := "",
      presupuesto := Some(50000.0),
      estado := Propuesto,
      entidadProponente := "Entidad de Prueba",
      isPublic := true,
      leadInvestigatorId := "user-3",
      leadInvestigator := MockUsers[2],
      collaborators := [],
      products := [],
      attachments := [],
      description := Some(""),
      imageId := "proj_5",
      aiScore := None,
      aiSummary := None,
      aiRationale := None,
      aiRecommendations := None)
  ]

  /** `mockProducts`: every seed project's products, project by project. */
  const MockProducts: seq<Product> := FlatMap(MockProjects, (p: Project) => p.products)

  /** The seed projects have the distinct ids proj-1 to proj-5, and their scores and budgets are in range. */
  lemma MockProjectsWellFormed()
    ensures |MockProjects| == 5
    ensures forall i, j :: 0 <= i < j < |MockProjects| ==> MockProjects[i].id != MockProjects[j].id
    ensures forall p <- MockProjects :: p.aiScore.Some? ==> 0.0 <= p.aiScore.value <= 100.0
    ensures forall p <- MockProjects :: p.presupuesto.Some? ==> p.presupuesto.value > 0.0
    ensures forall p <- MockProjects :: p.leadInvestigator in MockUsers && p.leadInvestigator.id == p.leadInvestigatorId
  {
  }

  /** The seed project ids, in order. */
  lemma MockProjectIds()
    ensures |MockProjects| == 5
    ensures MockProjects[0].id == "proj-1" && MockProjects[1].id == "proj-2" && MockProjects[2].id == "proj-3"
    ensures MockProjects[3].id == "proj-4" && MockProjects[4].id == "proj-5"
  {
  }

  /** Every seed product belongs to the project that lists it; the projects have 2, 1, 3, 1 and 0 products. */
  lemma MockProjectProducts()
    ensures forall k, q :: 0 <= k < |MockProjects| && q in MockProjects[k].products ==> q.projectId == MockProjects[k].id
    ensures |MockProjects| == 5
    ensures |MockProjects[0].products| == 2 && |MockProjects[1].products| == 1 && |MockProjects[2].products| == 3
    ensures |MockProjects[3].products| == 1 && |MockProjects[4].products| == 0
  {
    forall k, q | 0 <= k < |MockProjects| && q in MockProjects[k].products
      ensures q.projectId == MockProjects[k].id
    {
      assert MockProjects[k].products == GenerateProducts(MockProjects[k].id, |MockProjects[k].products|);
    }
  }

  /** The total length of five parts. */
  lemma TotalLengthOfFive<T, U>(s: seq<T>, f: T -> seq<U>)
    requires |s| == 5
    ensures TotalLength(s, f) == |f(s[0])| + |f(s[1])| + |f(s[2])| + |f(s[3])| + |f(s[4])|
  {
    assert s[4..][1..] == [];
    assert TotalLength(s[4..], f) == |f(s[4])|;
    assert s[3..][1..] == s[4..];
    assert TotalLength(s[3..], f) == |f(s[3])| + TotalLength(s[4..], f);
    assert s[2..][1..] == s[3..];
    assert TotalLength(s[2..], f) == |f(s[2])| + TotalLength(s[3..], f);
    assert s[1..][1..] == s[2..];
    assert TotalLength(s[1..], f) == |f(s[1])| + TotalLength(s[2..], f);
  }

  /** There are 2 + 1 + 3 + 1 + 0 = 7 seed products, each belonging to a seed project. */
  lemma MockProductsContents()
    ensures |MockProducts| == 7
    ensures forall q <- MockProducts :: exists p <- MockProjects :: q in p.products && q.projectId == p.id
  {
    var f := (p: Project) => p.products;
    FlatMapContents(MockProjects, f);
    MockProjectProducts();
    TotalLengthOfFive(MockProjects, f);
    forall q <- MockProducts ensures exists p <- MockProjects :: q in p.products && q.projectId == p.id {
      var p :| p in MockProjects && q in f(p);
      var k :| 0 <= k < |MockProjects| && MockProjects[k] == p;
    }
  }
}
