/**
 * The project cards: each project has an image carousel (the index of the
 * image shown) and a card that flips between front and back. The two are
 * kept in lists parallel to the project list.
 */
module ProjectCards {
  import Cyclic

  datatype Project = Project(
    title: string, images: seq<string>, description: string,
    demoLink: string, repoLink: string, createdAt: string, updatedAt: string)

  const PortfolioDescription: string := "Un portafolio moderno hecho con Angular 20 y Bootstrap 5. Incluye animaciones, responsive design y una mascota interactiva."
  const TodoDescription: string := "Aplicación para organizar tareas, con autenticación, drag & drop y sincronización en la nube (Firebase)."
  const ShopDescription: string := "Tienda online con Angular, carrito de compras, pasarela de pago y gestión de productos."

  /** The projects the component loads, as it hard-codes them. */
  function Catalog(): seq<Project>
  {
    [ Project("Portfolio Angular",
              ["/assets/images/angularRank.png", "/assets/images/javaScriptRank.png",
               "/assets/images/bootstrapRank.png"],
              PortfolioDescription,
              "https://tu-demo-angular.com", "https://github.com/bunnystring/portfolio-angular",
              "2024-09-01", "2025-06-01"),
      Project("ToDo App",
              ["https://picsum.photos/seed/todo1/400/250", "https://picsum.photos/seed/todo2/400/250"],
              TodoDescription,
              "https://tu-todo-app.com", "https://github.com/bunnystring/todo-app",
              "2024-05-10", "2025-05-12"),
      Project("E-commerce Angular",
              ["https://picsum.photos/seed/ecommerce1/400/250", "https://picsum.photos/seed/ecommerce2/400/250",
               "https://picsum.photos/seed/todo2/400/250", "https://picsum.photos/seed/todo2/400/250"],
              ShopDescription,
              "https://tu-ecommerce-angular.com", "", "", "") ]
  }

  /** The carousel of project `i` can move: the project exists and has at least two images. */
  predicate CanSlide(projects: seq<Project>, i: int)
  {
    0 <= i < |projects| && |projects[i].images| >= 2
  }

  class ProjectCard {
    var projects: seq<Project>
    var loading: bool
    var selectedImageIndex: seq<int>
    var flipped: seq<bool>
    /** The 1800 ms `setTimeout` of `ngOnInit` that loads the projects. */
    var loadPending: bool

    /**
     * The lists are parallel to `projects`, and each index designates an
     * image (or is 0 for a project with no image).
     */
    ghost predicate Valid()
      reads this
    {
      && |selectedImageIndex| == |projects| && |flipped| == |projects|
      && forall i :: 0 <= i < |projects| ==>
           0 <= selectedImageIndex[i] && (selectedImageIndex[i] < |projects[i].images| || selectedImageIndex[i] == 0)
    }

    constructor ()
      ensures Valid()
      ensures projects == [] && loading && selectedImageIndex == [] && flipped == [] && !loadPending
    {
      projects, loading, selectedImageIndex, flipped := [], true, [], [];
      loadPending := false;
    }

    /** `ngOnInit`: arm the timer that loads the projects. */
    method OnInit()
      modifies this`loadPending
      ensures loadPending
    {
      loadPending := true;
    }

    /**
     * The loading timer runs out: the projects arrive, every carousel shows
     * its first image, no card is flipped, and loading is over.
     */
    method FireLoadTimer()
      requires loadPending
      modifies this
      ensures Valid()
      ensures projects == Catalog() && !loading && !loadPending
      ensures |selectedImageIndex| == |projects| && |flipped| == |projects|
      ensures forall i :: 0 <= i < |projects| ==> selectedImageIndex[i] == 0 && !flipped[i]
    {
      projects := Catalog();
      selectedImageIndex := seq(|projects|, _ => 0);
      flipped := seq(|projects|, _ => false);
      loading := false;
      loadPending := false;
    }

    /** `prevImage(i)`: step project `i`'s carousel back, wrapping around; no-op if it cannot slide. */
    method PrevImage(i: int)
      requires Valid()
      modifies this`selectedImageIndex
      ensures Valid()
      ensures CanSlide(projects, i) ==>
                selectedImageIndex == old(selectedImageIndex)[i := Cyclic.Prev(old(selectedImageIndex)[i], |projects[i].images|)]
      ensures !CanSlide(projects, i) ==> selectedImageIndex == old(selectedImageIndex)
    {
      if !CanSlide(projects, i) {
        return;
      }
      selectedImageIndex := selectedImageIndex[i := Cyclic.Prev(selectedImageIndex[i], |projects[i].images|)];
    }

    /** `nextImage(i)`: step project `i`'s carousel forward, wrapping around; no-op if it cannot slide. */
    method NextImage(i: int)
      requires Valid()
      modifies this`selectedImageIndex
      ensures Valid()
      ensures CanSlide(projects, i) ==>
                selectedImageIndex == old(selectedImageIndex)[i := Cyclic.Next(old(selectedImageIndex)[i], |projects[i].images|)]
      ensures !CanSlide(projects, i) ==> selectedImageIndex == old(selectedImageIndex)
    {
      if !CanSlide(projects, i) {
        return;
      }
      selectedImageIndex := selectedImageIndex[i := Cyclic.Next(selectedImageIndex[i], |projects[i].images|)];
    }

    /** `flipCard(i)`: turn card `i` over; nothing happens for a card that does not exist. */
    method FlipCard(i: int)
      requires Valid()
      modifies this`flipped
      ensures Valid()
      ensures 0 <= i < |flipped| ==> flipped == old(flipped)[i := !old(flipped)[i]]
      ensures !(0 <= i < |flipped|) ==> flipped == old(flipped)
    {
      if !(0 <= i < |flipped|) {
        return;
      }
      flipped := flipped[i := !flipped[i]];
    }

    /** `nextImage(i)` followed by `prevImage(i)` leaves every carousel as it was. */
    method NextThenPrevRestores(i: int)
      requires Valid()
      modifies this`selectedImageIndex
      ensures Valid()
      ensures selectedImageIndex == old(selectedImageIndex)
    {
      NextImage(i);
      PrevImage(i);
      if CanSlide(projects, i) {
        Cyclic.PrevUndoesNext(old(selectedImageIndex)[i], |projects[i].images|);
      }
    }
  }
}
