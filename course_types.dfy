/** The course record and the card status enum (src/components/ui/course/types.ts). */
module CourseTypes {

  /** A listing of the course marketplace; `index` is its position in the contract's array. */
  datatype Course = Course(
    index: nat,
    title: string,
    description: string,
    author: string,
    image: string,
    price: nat,
    sold: nat)

  /** `CourseStatus`: NEW, BOUGHT, COMPLETED. */
  datatype CourseStatus = New | Bought | Completed
}
