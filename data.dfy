/**
 * The data-access layer: both queries read the seed projects. Switching off the
 * framework's response cache is an effect outside this model.
 */
module Data {
  import opened Wrappers
  import opened Definitions
  import opened ArrayOps
  import opened MockData

  /** `getProjects`: the whole seed list, in seed order. */
  function GetProjects(): (r: seq<Project>)
    ensures r == MockProjects
    ensures |r| == 5
    ensures forall i, j :: 0 <= i < j < |r| ==> r[i].id != r[j].id
    ensures forall p <- r :: p.aiScore.Some? ==> 0.0 <= p.aiScore.value <= 100.0
  {
    MockProjectsWellFormed();
    MockProjects
  }

  /** `getProjectById`: the first seed project with the given id, or nothing. */
  function GetProjectById(id: string): (r: Option<Project>)
    ensures r.Some? <==> exists p <- MockProjects :: p.id == id
    ensures r.Some? ==> r.value in MockProjects && r.value.id == id
  {
    Find(MockProjects, (p: Project) => p.id == id)
  }

  /** Ids are unique, so a found project is the only seed project with that id. */
  lemma FoundProjectIsUnique(id: string)
    requires GetProjectById(id).Some?
    ensures forall p <- MockProjects :: p.id == id ==> p == GetProjectById(id).value
  {
    MockProjectsWellFormed();
    FindOnlyMatch(MockProjects, (p: Project) => p.id == id);
  }

  /** Looking up a listed project's id gives back that very project. */
  lemma ListedProjectsAreFound()
    ensures forall p <- GetProjects() :: GetProjectById(p.id) == Some(p)
  {
    forall p <- GetProjects() ensures GetProjectById(p.id) == Some(p) {
      FoundProjectIsUnique(p.id);
    }
  }

  /** Every seed product's `projectId` leads back to the seed project that lists it. */
  lemma ProductsResolveToTheirProject()
    ensures forall q <- MockProducts :: GetProjectById(q.projectId).Some? && q in GetProjectById(q.projectId).value.products
  {
    MockProductsContents();
    forall q <- MockProducts
      ensures GetProjectById(q.projectId).Some? && q in GetProjectById(q.projectId).value.products
    {
      var p :| p in MockProjects && q in p.products && q.projectId == p.id;
      FoundProjectIsUnique(p.id);
    }
  }

  /** An id other than proj-1 to proj-5 is not found. */
  lemma UnknownIdIsNotFound(id: string)
    requires id !in {"proj-1", "proj-2", "proj-3", "proj-4", "proj-5"}
    ensures GetProjectById(id) == None
  {
    MockProjectIds();
    forall p <- MockProjects ensures p.id != id {
      var k :| 0 <= k < |MockProjects| && MockProjects[k] == p;
    }
  }

  /** proj-3 is the third seed project. */
  lemma ThirdSeedIsFound()
    ensures GetProjectById("proj-3") == Some(MockProjects[2])
  {
    MockProjectIds();
    FoundProjectIsUnique("proj-3");
  }
}
