/** The page's two records and the seed list the page state starts from. */
module NewsTypes {

  /** One reader comment under a news card; `likes`/`dislikes` are the counts shipped with the data. */
  datatype Comment = Comment(
    id: int,
    author: string,
    text: string,
    date: string,
    likes: int,
    dislikes: int)

  /** One news card. `rating` is the mean of `ratingCount` star votes, kept as an exact rational. */
  datatype NewsItem = NewsItem(
    id: int,
    title: string,
    description: string,
    category: string,
    date: string,
    comments: seq<Comment>,
    likes: int,
    dislikes: int,
    rating: real,
    ratingCount: nat)

  const Title1: string := "Новые технологии в образовании"
  const Description1: string := "Исследование показывает, как ИИ меняет процесс обучения и делает образование более доступным для всех категорий студентов."
  const Title2: string := "Экологические инициативы городов"
  const Description2: string := "Анализ успешных проектов по озеленению и снижению углеродного следа в крупных городах России и мира."
  const Title3: string := "Развитие космических технологий"
  const Description3: string := "Последние достижения в области космонавтики и планы освоения Марса в ближайшие десятилетия."

  const Comments1: seq<Comment> := [
    Comment(1, "Анна К.", "Очень интересная статья! ИИ действительно революционизирует образование.", "29 июля 2025", 12, 1),
    Comment(2, "Михаил С.", "А как насчёт этических вопросов использования ИИ в школах?", "29 июля 2025", 8, 2) ]
  const Comments2: seq<Comment> := [
    Comment(3, "Елена Р.", "Отличные примеры! Нужно больше таких инициатив в нашем городе.", "28 июля 2025", 15, 0) ]

  /** The literal list `newsItems` is initialised with. */
  function SeedNews(): (items: seq<NewsItem>)
    ensures |items| == 3
    ensures items[0].id == 1 && items[0].likes == 24 && items[0].dislikes == 3
    ensures items[0].rating == 4.5 && items[0].ratingCount == 18
  {
    [ NewsItem(1, Title1, Description1, "Технологии", "29 июля 2025", Comments1, 24, 3, 4.5, 18),
      NewsItem(2, Title2, Description2, "Экология", "28 июля 2025", Comments2, 31, 2, 4.8, 22),
      NewsItem(3, Title3, Description3, "Космос", "27 июля 2025", [], 19, 4, 4.2, 14) ]
  }
}
